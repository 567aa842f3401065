/** The public chart builders: each resolves its channel arguments, melts
    wide data where it draws several series, composes the specification
    (annotation layers, meta keys, optional minimap) and hands it to the
    renderer together with its container-width flag. */
module Charts {

  import opened Results
  import opened JsonData
  import opened Encoding
  import opened Reshape
  import opened Compose
  import opened Minimap

  /** What the renderer is handed: the specification and whether the chart
      stretches to the width of its container. */
  datatype Chart = Chart(spec: Dict, useContainerWidth: bool)

  /** The size, title and sizing arguments every builder takes. */
  datatype Frame = Frame(width: Option<int>, height: Option<int>, title: Option<string>, useContainerWidth: bool)

  /** The annotation arguments of a builder, and how a coordinate is
      rendered inside a tooltip. */
  datatype Notes = Notes(x: Annot, y: Annot, show: Json -> string)

  predicate Annotates(notes: Notes) {
    AnnotTruthy(notes.x) || AnnotTruthy(notes.y)
  }

  /** A custom encoding dict whose `scale` (if any) is not a dict cannot be
      linked to a minimap brush. */
  predicate ScaleOk(arg: ChannelArg) {
    arg.Obj? && "scale" in arg.enc ==> arg.enc["scale"].JObj?
  }

  /** The keys every builder lays over its specification last. */
  function Meta(data: Table, frame: Frame): (r: Dict)
    ensures r.Keys == {"data", "width", "height", "title"}
    ensures r["data"] == JData(data)
    ensures r["width"] == OptInt(frame.width) && r["height"] == OptInt(frame.height)
    ensures r["title"] == OptStr(frame.title)
  {
    map["data" := JData(data), "width" := OptInt(frame.width), "height" := OptInt(frame.height), "title" := OptStr(frame.title)]
  }

  /** A mark of the given kind with tooltips on. */
  function Mark(kind: string): Json {
    JObj(map["type" := JStr(kind), "tooltip" := JBool(true)])
  }

  /** Annotation layers first, then the meta keys over the result. */
  function Annotated(plot: Dict, data: Table, frame: Frame, notes: Notes): (r: Dict)
    ensures !Annotates(notes) ==> r == plot + Meta(data, frame)
    ensures Annotates(notes) ==>
      && r.Keys == {"layer", "data", "width", "height", "title"}
      && r["layer"].JArr? && |r["layer"].items| > 0 && r["layer"].items[0] == JObj(plot)
    ensures forall k :: k in Meta(data, frame) ==> k in r && r[k] == Meta(data, frame)[k]
  {
    AddAnnotations(plot, notes.x, notes.y, notes.show) + Meta(data, frame)
  }

  /** The last step of a builder with a minimap mode. */
  function Finish(spec: Dict, panZoom: Option<string>, encodings: seq<string>, location: string, filter: bool): (r: Dict)
    requires panZoom == Some("minimap") ==> MinimapReady(spec, encodings, location, filter)
    ensures panZoom != Some("minimap") ==> r == spec
    ensures panZoom == Some("minimap") ==> IsConcat(r, location) && "mark" !in r && "encoding" !in r
    ensures "data" in spec ==> "data" in r && r["data"] == spec["data"]
    ensures "title" in spec ==> "title" in r && r["title"] == spec["title"]
  {
    if panZoom == Some("minimap") then
      AddMinimapOuter(spec, encodings, location, filter);
      AddMinimap(spec, encodings, location, filter)
    else spec
  }

  /** A channel encoding cleaned from an argument whose custom scale is a
      dict has a dict scale, if any. */
  lemma CleanKeepsScaleDict(data: Table, arg: ChannelArg, opts: Dict)
    requires ValidTable(data) && "scale" !in opts
    ensures var e := Clean(data, arg, opts); ScaleOk(arg) && "scale" in e ==> e["scale"].JObj?
  {
  }

  /** Annotations, meta keys and (in minimap mode) the minimap, in the
      order every builder applies them. */
  function Assemble(plot: Dict, data: Table, frame: Frame, notes: Notes, panZoom: Option<string>,
                    encodings: seq<string>, location: string, filter: bool): (r: Dict)
    requires panZoom == Some("minimap") ==> !Annotates(notes) && MinimapReady(plot + Meta(data, frame), encodings, location, filter)
    ensures "data" in r && r["data"] == JData(data)
    ensures "title" in r && r["title"] == OptStr(frame.title)
    ensures panZoom != Some("minimap") ==>
      && "width" in r && r["width"] == OptInt(frame.width)
      && "height" in r && r["height"] == OptInt(frame.height)
    ensures !Annotates(notes) && panZoom != Some("minimap") ==> r == plot + Meta(data, frame)
    ensures Annotates(notes) && panZoom != Some("minimap") ==>
      && r.Keys == {"layer", "data", "width", "height", "title"}
      && r["layer"].JArr? && |r["layer"].items| > 0 && r["layer"].items[0] == JObj(plot)
    ensures panZoom == Some("minimap") ==> IsConcat(r, location) && "mark" !in r && "encoding" !in r
  {
    var spec := Annotated(plot, data, frame, notes);
    assert "data" in spec && spec["data"] == JData(data);
    assert "title" in spec && spec["title"] == OptStr(frame.title);
    Finish(spec, panZoom, encodings, location, filter)
  }

  // ---------------------------------------------------------------------
  // Series charts: line and area

  /** The channels of a line or area chart, with the data they read: wide
      data melts, the series then get a colour unless one is given, and
      the y axis reads the stacked values. */
  function SeriesChannels(data: Table, x: ChannelArg, y: SeriesArg, color: ChannelArg, opacity: ChannelArg, legend: Json)
    : (r: Result<(Table, Dict), Failure>)
    requires ValidTable(data)
    requires MeltInputsOk(data, x, y, [opacity])
    ensures r.Err? <==> Melts(x, y) && ReservedTaken(data)
    ensures r.Ok? ==> ValidTable(r.value.0)
    ensures r.Ok? ==> r.value.1.Keys == {"x", "y", "color", "opacity"}
    ensures r.Ok? ==> r.value.1["y"].JObj? && r.value.1["x"].JObj?
    ensures r.Ok? && !Melts(x, y) ==> r.value.0 == data
    ensures r.Ok? && Melts(x, y) ==>
      && |r.value.0.rows| == |data.rows| * |y.names|
      && "field" in r.value.1["y"].fields && r.value.1["y"].fields["field"] == JStr(ValueName)
      && (!ArgTruthy(color) ==> r.value.1["color"] == JObj(map["field" := JStr(VarName), "title" := JNull, "legend" := legend]))
    ensures r.Ok? && ArgTruthy(color) ==> r.value.1["color"] == JObj(Clean(r.value.0, color, map["legend" := legend]))
    ensures r.Ok? && !Melts(x, y) && !ArgTruthy(color) ==> r.value.1["color"] == JNull
    ensures r.Ok? && ScaleOk(x) ==> Linkable(r.value.1, false)
  {
    var m :- MaybeMelt(data, x, y, legend, [opacity]);
    Ok((m.data, MeltedChannels(m, x, color, opacity, legend)))
  }

  /** The four channels of a line or area chart over the (possibly melted)
      data: a colour argument wins over the series encoding. */
  function MeltedChannels(m: Melt, x: ChannelArg, color: ChannelArg, opacity: ChannelArg, legend: Json): (r: Dict)
    requires ValidTable(m.data)
    ensures r.Keys == {"x", "y", "color", "opacity"}
    ensures r["x"] == JObj(Clean(m.data, x, map[])) && r["y"] == JObj(m.valueEnc)
    ensures r["color"] == if ArgTruthy(color) then JObj(Clean(m.data, color, map["legend" := legend])) else m.seriesEnc
    ensures ScaleOk(x) ==> Linkable(r, false)
  {
    CleanKeepsScaleDict(m.data, x, map[]);
    map[
      "x" := JObj(Clean(m.data, x, map[])),
      "y" := JObj(m.valueEnc),
      "color" := if ArgTruthy(color) then JObj(Clean(m.data, color, map["legend" := legend])) else m.seriesEnc,
      "opacity" := JObj(Clean(m.data, opacity, map[]))]
  }


  /** The channel encodings a minimap can link: x and y are dicts, and the
      scale of every brushed channel (x, and y as well for a two-dimensional
      minimap), if any, is a dict. */
  predicate Linkable(channels: Dict, twoD: bool) {
    && "x" in channels && channels["x"].JObj?
    && "y" in channels && channels["y"].JObj?
    && ("scale" in channels["x"].fields ==> channels["x"].fields["scale"].JObj?)
    && (twoD && "scale" in channels["y"].fields ==> channels["y"].fields["scale"].JObj?)
  }

  /** The channels a series chart's minimap brushes. */
  function Brushes(twoD: bool): seq<string> {
    if twoD then ["x", "y"] else ["x"]
  }

  /** A two-dimensional minimap halves the plot's own size, so both sizes
      must be given. */
  predicate Sized(frame: Frame) {
    frame.width.Some? && frame.height.Some?
  }

  /** A plot over linkable channels is ready for a minimap below it. */
  lemma LinkableReady(plot: Dict, channels: Dict, data: Table, frame: Frame, twoD: bool)
    requires Linkable(channels, twoD)
    requires twoD ==> Sized(frame)
    requires "encoding" in plot && plot["encoding"] == JObj(channels)
    ensures MinimapReady(plot + Meta(data, frame), Brushes(twoD), "bottom", false)
  {
    var spec := plot + Meta(data, frame);
    assert spec["encoding"] == JObj(channels);
    assert forall c :: c in Brushes(twoD) ==> c == "x" || (twoD && c == "y");
  }

  /** The specification of a chart with an optional minimap below it (line,
      area, scatter and event charts) over resolved channels. */
  function SeriesSpec(mark: Json, data: Table, channels: Dict, frame: Frame, notes: Notes, panZoom: Option<string>, twoD: bool): (r: Dict)
    requires panZoom == Some("minimap") ==> !Annotates(notes) && Linkable(channels, twoD) && (twoD ==> Sized(frame))
    ensures PlainPlot(r, mark, panZoom, notes)
    ensures OuterMeta(r, frame, panZoom == Some("minimap")) && r["data"] == JData(data)
    ensures !Annotates(notes) && panZoom != Some("minimap") ==> r["encoding"] == JObj(channels)
    ensures !Annotates(notes) && panZoom != Some("minimap") ==>
      r == map["mark" := mark, "encoding" := JObj(channels), "selection" := Selection(panZoom)] + Meta(data, frame)
    ensures panZoom == Some("minimap") ==>
      && IsConcat(r, "bottom")
      && "selection" in MiniView(r, "bottom") && MiniView(r, "bottom")["selection"] == BrushSelection(Brushes(twoD))
  {
    var plot := map["mark" := mark, "encoding" := JObj(channels), "selection" := Selection(panZoom)];
    if panZoom == Some("minimap") then SeriesMinimap(plot, channels, data, frame, notes, twoD)
    else SeriesFlat(plot, data, frame, notes, panZoom)
  }

  /** `SeriesSpec` in minimap mode: the plot above its minimap. */
  function SeriesMinimap(plot: Dict, channels: Dict, data: Table, frame: Frame, notes: Notes, twoD: bool): (r: Dict)
    requires !Annotates(notes) && Linkable(channels, twoD) && (twoD ==> Sized(frame))
    requires "encoding" in plot && plot["encoding"] == JObj(channels)
    ensures "vconcat" in r && "mark" !in r
    ensures OuterMeta(r, frame, true) && r["data"] == JData(data)
    ensures IsConcat(r, "bottom")
    ensures "selection" in MiniView(r, "bottom") && MiniView(r, "bottom")["selection"] == BrushSelection(Brushes(twoD))
  {
    LinkableReady(plot, channels, data, frame, twoD);
    MinimapView(plot + Meta(data, frame), Brushes(twoD), "bottom", false);
    assert ConcatKey("bottom") == "vconcat";
    Assemble(plot, data, frame, notes, Some("minimap"), Brushes(twoD), "bottom", false)
  }

  /** `SeriesSpec` outside minimap mode: the plot, or the annotation
      layers over it, under the meta keys. */
  function SeriesFlat(plot: Dict, data: Table, frame: Frame, notes: Notes, panZoom: Option<string>): (r: Dict)
    requires panZoom != Some("minimap")
    requires "mark" in plot && "encoding" in plot && "selection" in plot
    ensures OuterMeta(r, frame, false) && r["data"] == JData(data)
    ensures !Annotates(notes) ==>
      && "mark" in r && r["mark"] == plot["mark"]
      && "encoding" in r && r["encoding"] == plot["encoding"]
      && "selection" in r && r["selection"] == plot["selection"]
    ensures Annotates(notes) ==> "layer" in r && "mark" !in r
    ensures !Annotates(notes) ==> r == plot + Meta(data, frame)
  {
    var r := Assemble(plot, data, frame, notes, panZoom, [], "bottom", false);
    if Annotates(notes) then r
    else
      assert r == plot + Meta(data, frame);
      PlotOverMeta(plot, data, frame);
      r
  }

  /** The meta keys do not touch the mark, encoding or selection. */
  lemma PlotOverMeta(plot: Dict, data: Table, frame: Frame)
    ensures "mark" in plot ==> (plot + Meta(data, frame))["mark"] == plot["mark"]
    ensures "encoding" in plot ==> (plot + Meta(data, frame))["encoding"] == plot["encoding"]
    ensures "selection" in plot ==> (plot + Meta(data, frame))["selection"] == plot["selection"]
  {
  }

  /** The data and title are on the outermost specification, and so are
      the sizes unless a minimap moved them into the views. */
  ghost predicate OuterMeta(spec: Dict, frame: Frame, minimap: bool) {
    && "data" in spec && spec["data"].JData?
    && "title" in spec && spec["title"] == OptStr(frame.title)
    && (!minimap ==>
          && "width" in spec && spec["width"] == OptInt(frame.width)
          && "height" in spec && spec["height"] == OptInt(frame.height))
  }

  /** Without annotations the outermost specification is the plot itself,
      with the selection of the pan/zoom mode; with annotations it is a
      layer stack. */
  ghost predicate LayeredPlot(spec: Dict, mark: Json, panZoom: Option<string>, notes: Notes) {
    && (!Annotates(notes) ==>
          && "mark" in spec && spec["mark"] == mark
          && "encoding" in spec
          && "selection" in spec && spec["selection"] == Selection(panZoom))
    && (Annotates(notes) ==> "layer" in spec && "mark" !in spec)
  }

  /** As `LayeredPlot`, except that the minimap mode makes the outermost
      specification a vertical concatenation. */
  ghost predicate PlainPlot(spec: Dict, mark: Json, panZoom: Option<string>, notes: Notes) {
    && (panZoom != Some("minimap") ==> LayeredPlot(spec, mark, panZoom, notes))
    && (panZoom == Some("minimap") ==> "vconcat" in spec && "mark" !in spec)
  }

  /** The value under `key` in channel `ch` of an encoding dict, if any. */
  function EncKey(channels: Dict, ch: string, key: string): Option<Json> {
    if ch in channels && channels[ch].JObj? && key in channels[ch].fields
    then Some(channels[ch].fields[key]) else None
  }

  /** The encoding of channel `ch` of a view, if any. */
  function ChannelOf(spec: Dict, ch: string): Option<Json> {
    if "encoding" in spec && spec["encoding"].JObj? && ch in spec["encoding"].fields
    then Some(spec["encoding"].fields[ch]) else None
  }

  /** The value under `key` in channel `ch` of a view's encoding, if any. */
  function ChannelKey(spec: Dict, ch: string, key: string): Option<Json> {
    if "encoding" in spec && spec["encoding"].JObj? then EncKey(spec["encoding"].fields, ch, key) else None
  }

  // ---------------------------------------------------------------------
  // Line and area charts

  /** `line_chart`. */
  function LineChart(
    data: Table, x: ChannelArg, y: SeriesArg, color: ChannelArg, opacity: ChannelArg,
    notes: Notes, frame: Frame, legend: Option<string>, panZoom: Option<string>)
    : (r: Result<Chart, Failure>)
    requires ValidTable(data)
    requires MeltInputsOk(data, x, y, [opacity])
    requires panZoom == Some("minimap") ==> !Annotates(notes) && ScaleOk(x)
    ensures r.Err? <==> Melts(x, y) && ReservedTaken(data)
    ensures r.Ok? ==> r.value.useContainerWidth == frame.useContainerWidth
    ensures r.Ok? ==> PlainPlot(r.value.spec, Mark("line"), panZoom, notes)
    ensures r.Ok? ==> OuterMeta(r.value.spec, frame, panZoom == Some("minimap"))
    ensures r.Ok? && !Melts(x, y) ==> r.value.spec["data"] == JData(data)
    ensures r.Ok? && Melts(x, y) ==> |r.value.spec["data"].table.rows| == |data.rows| * |y.names|
  {
    var (long, channels) :- SeriesChannels(data, x, y, color, opacity, LegendDict(legend));
    Ok(Chart(SeriesSpec(Mark("line"), long, channels, frame, notes, panZoom, false), frame.useContainerWidth))
  }

  /** In a melted series chart with no colour argument, every field the
      plot reads is a column of the long table: x reads the id column,
      y the stacked values and colour the series names. */
  lemma SeriesFieldsAreColumns(data: Table, x: ChannelArg, y: SeriesArg, color: ChannelArg, opacity: ChannelArg, legend: Json)
    requires ValidTable(data)
    requires MeltInputsOk(data, x, y, [opacity])
    requires Melts(x, y) && !ReservedTaken(data) && !ArgTruthy(color)
    ensures SeriesChannels(data, x, y, color, opacity, legend).Ok?
    ensures var (long, channels) := SeriesChannels(data, x, y, color, opacity, legend).value;
      && x.Str?
      && EncKey(channels, "x", "field") == Some(JStr(SplitSuffix(x.name).0))
      && EncKey(channels, "y", "field") == Some(JStr(ValueName))
      && EncKey(channels, "color", "field") == Some(JStr(VarName))
      && SplitSuffix(x.name).0 in long.columns && ValueName in long.columns && VarName in long.columns
  {
    var m := MaybeMelt(data, x, y, legend, [opacity]).value;
    var xName := SplitSuffix(x.name).0;
    assert m.data.columns == IdVars(data, xName, [opacity]) + [VarName, ValueName];
    assert m.data.columns[0] == xName;
    assert SeriesChannels(data, x, y, color, opacity, legend) == Ok((m.data, MeltedChannels(m, x, color, opacity, legend)));
    MeltedFields(m, x, color, opacity, legend);
  }

  lemma MeltedFields(m: Melt, x: ChannelArg, color: ChannelArg, opacity: ChannelArg, legend: Json)
    requires ValidTable(m.data) && x.Str? && SplitSuffix(x.name).0 in m.data.columns && !ArgTruthy(color)
    requires "field" in m.valueEnc && m.valueEnc["field"] == JStr(ValueName)
    requires m.seriesEnc == JObj(map["field" := JStr(VarName), "title" := JNull, "legend" := legend])
    ensures var channels := MeltedChannels(m, x, color, opacity, legend);
      && EncKey(channels, "x", "field") == Some(JStr(SplitSuffix(x.name).0))
      && EncKey(channels, "y", "field") == Some(JStr(ValueName))
      && EncKey(channels, "color", "field") == Some(JStr(VarName))
  {
    IdFieldOfShorthand(m.data, x.name);
  }

  /** A string whose shorthand-stripped name is a column resolves to a
      field of that name. */
  lemma IdFieldOfShorthand(data: Table, s: string)
    requires ValidTable(data) && SplitSuffix(s).0 in data.columns
    ensures "field" in Clean(data, Str(s), map[]) && Clean(data, Str(s), map[])["field"] == JStr(SplitSuffix(s).0)
  {
  }

  /** The stack mode a stack argument stands for: True means "zero". The
      boolean True never reaches a specification, and a truthy argument
      stays truthy. */
  function StackValue(stack: Json): (r: Json)
    ensures r != JBool(true)
    ensures Truthy(r) <==> Truthy(stack)
    ensures stack != JBool(true) ==> r == stack
  {
    if stack == JBool(true) then JStr("zero") else stack
  }

  /** `area_chart`'s stacking: every stack argument but None is written
      into the y encoding. */
  function AreaStack(enc: Dict, stack: Json): (r: Dict)
    ensures stack == JNull ==> r == enc
    ensures stack != JNull ==> r.Keys == enc.Keys + {"stack"} && r["stack"] == StackValue(stack)
    ensures forall k :: k in enc && k != "stack" ==> r[k] == enc[k]
  {
    if stack != JNull then enc["stack" := StackValue(stack)] else enc
  }

  /** `bar_chart`'s stacking: only a truthy stack argument is written. */
  function BarStack(enc: Dict, stack: Json): (r: Dict)
    ensures !Truthy(stack) ==> r == enc
    ensures Truthy(stack) ==> r.Keys == enc.Keys + {"stack"} && r["stack"] == StackValue(stack)
    ensures forall k :: k in enc && k != "stack" ==> r[k] == enc[k]
  {
    if Truthy(stack) then enc["stack" := StackValue(stack)] else enc
  }

  /** The two stacking policies agree exactly when the stack argument is
      None or truthy: a falsy non-None argument (False, 0, "") is written
      by the area chart and dropped by the bar chart. */
  lemma StackPolicies(enc: Dict, stack: Json)
    requires "stack" !in enc
    ensures AreaStack(enc, stack) == BarStack(enc, stack) <==> stack == JNull || Truthy(stack)
    ensures AreaStack(enc, JBool(true))["stack"] == BarStack(enc, JBool(true))["stack"] == JStr("zero")
  {
    var area, bar := AreaStack(enc, stack), BarStack(enc, stack);
    if stack == JNull {
      assert !Truthy(stack);
      assert area == enc == bar;
    } else if Truthy(stack) {
      assert area == enc["stack" := StackValue(stack)] == bar;
    } else {
      assert "stack" in area && "stack" !in bar;
    }
    assert Truthy(JBool(true)) && StackValue(JBool(true)) == JStr("zero");
  }

  /** `area_chart`: a line chart's channels with the y encoding stacked. */
  function AreaChart(
    data: Table, x: ChannelArg, y: SeriesArg, color: ChannelArg, opacity: ChannelArg, stack: Json,
    notes: Notes, frame: Frame, legend: Option<string>, panZoom: Option<string>)
    : (r: Result<Chart, Failure>)
    requires ValidTable(data)
    requires MeltInputsOk(data, x, y, [opacity])
    requires panZoom == Some("minimap") ==> !Annotates(notes) && ScaleOk(x)
    ensures r.Err? <==> Melts(x, y) && ReservedTaken(data)
    ensures r.Ok? ==> r.value.useContainerWidth == frame.useContainerWidth
    ensures r.Ok? ==> PlainPlot(r.value.spec, Mark("area"), panZoom, notes)
    ensures r.Ok? ==> OuterMeta(r.value.spec, frame, panZoom == Some("minimap"))
    ensures r.Ok? && !Melts(x, y) ==> r.value.spec["data"] == JData(data)
    ensures r.Ok? && Melts(x, y) ==> |r.value.spec["data"].table.rows| == |data.rows| * |y.names|
    ensures r.Ok? && !Annotates(notes) && panZoom != Some("minimap") && stack != JNull ==>
      ChannelKey(r.value.spec, "y", "stack") == Some(StackValue(stack))
  {
    var (long, channels) :- SeriesChannels(data, x, y, color, opacity, LegendDict(legend));
    Ok(Chart(SeriesSpec(Mark("area"), long, StackY(channels, stack), frame, notes, panZoom, false), frame.useContainerWidth))
  }

  /** The area chart's stacking applied to the y channel only. */
  function StackY(channels: Dict, stack: Json): (r: Dict)
    requires "y" in channels && channels["y"].JObj?
    ensures r.Keys == channels.Keys
    ensures forall k :: k in channels && k != "y" ==> r[k] == channels[k]
    ensures Linkable(channels, false) ==> Linkable(r, false)
    ensures stack != JNull ==> EncKey(r, "y", "stack") == Some(StackValue(stack))
  {
    channels["y" := JObj(AreaStack(channels["y"].fields, stack))]
  }

  // ---------------------------------------------------------------------
  // Bar charts

  /** How the bars are grouped: not at all, by series (wide data only), or
      by the column an argument names. */
  datatype Grouping = NoGroup | BySeries | ByColumn(arg: ChannelArg)

  /** The string "value" as a colour or group argument stands for the
      series, i.e. the `variable` column of the melt. */
  function SeriesAlias(a: ChannelArg): (r: ChannelArg)
    ensures r == Str(VarName) <==> a == Str(ValueName) || a == Str(VarName)
    ensures r != Str(ValueName)
    ensures a != Str(ValueName) ==> r == a
  {
    if a == Str(ValueName) then Str(VarName) else a
  }

  /** The channel holding the bar lengths, the one holding the categories,
      the facet channel grouping uses, and the facet channel left empty. */
  function ValueAxis(horizontal: bool): string { if horizontal then "x" else "y" }
  function CategoryAxis(horizontal: bool): string { if horizontal then "y" else "x" }
  function FacetAxis(horizontal: bool): string { if horizontal then "row" else "column" }
  function SpareFacet(horizontal: bool): string { if horizontal then "column" else "row" }

  /** The channels of a bar chart: vertical bars put the categories on x
      and the facets in columns; horizontal bars swap x with y and columns
      with rows. */
  function BarLayout(category: Json, length: Json, color: Json, opacity: Json, facet: Json, horizontal: bool): (r: Dict)
    ensures r.Keys == {"x", "y", "color", "opacity", "column", "row"}
    ensures r[CategoryAxis(horizontal)] == category && r[ValueAxis(horizontal)] == length
    ensures r[FacetAxis(horizontal)] == facet && r[SpareFacet(horizontal)] == JNull
    ensures r["color"] == color && r["opacity"] == opacity
  {
    if horizontal then
      map["x" := length, "y" := category, "color" := color, "opacity" := opacity, "column" := JNull, "row" := facet]
    else
      map["x" := category, "y" := length, "color" := color, "opacity" := opacity, "column" := facet, "row" := JNull]
  }

  /** The category and facet encodings of a bar chart. Grouping by series
      puts the series on the category axis and facets by the category;
      grouping by a column facets by that column; facets are 10 pixels
      apart. */
  function BarGrouping(long: Table, category: Dict, series: Json, group: Grouping): (r: (Json, Json))
    requires ValidTable(long)
    ensures group.BySeries? ==> r == (series, JObj(category["spacing" := JInt(10)]))
    ensures group.ByColumn? && ArgTruthy(group.arg) ==>
      r == (JObj(category), JObj(Clean(long, SeriesAlias(group.arg), map["title" := JNull])["spacing" := JInt(10)]))
    ensures !group.BySeries? && !(group.ByColumn? && ArgTruthy(group.arg)) ==> r == (JObj(category), JNull)
  {
    match group
    case NoGroup => (JObj(category), JNull)
    case BySeries => (series, JObj(category["spacing" := JInt(10)]))
    case ByColumn(g) =>
      if ArgTruthy(g) then (JObj(category), JObj(Clean(long, SeriesAlias(g), map["title" := JNull])["spacing" := JInt(10)]))
      else (JObj(category), JNull)
  }

  /** The channels of a bar chart, with the data they read. The category
      encoding is resolved against the table as given, before any melt. */
  function BarChannels(
    data: Table, bar: ChannelArg, value: SeriesArg, color: ChannelArg, opacity: ChannelArg,
    legend: Json, group: Grouping, stack: Json, horizontal: bool)
    : (r: Result<(Table, Dict), Failure>)
    requires ValidTable(data)
    requires MeltInputsOk(data, bar, value, [opacity])
    ensures r.Err? <==> (Melts(bar, value) && ReservedTaken(data)) || (group.BySeries? && !Melts(bar, value))
    ensures group.BySeries? && !Melts(bar, value) ==> r == Err(GroupNeedsWideData)
    ensures r.Ok? ==> ValidTable(r.value.0)
    ensures r.Ok? ==> BarShape(r.value.1, horizontal)
    ensures r.Ok? && !group.BySeries? ==>
      r.value.1[CategoryAxis(horizontal)] == JObj(Clean(data, bar, map["title" := JNull]))
    ensures r.Ok? && group.BySeries? ==>
      && r.value.1[CategoryAxis(horizontal)] == r.value.1["color"]
      && r.value.1[FacetAxis(horizontal)] == JObj(Clean(data, bar, map["title" := JNull])["spacing" := JInt(10)])
    ensures r.Ok? && Melts(bar, value) ==> EncKey(r.value.1, ValueAxis(horizontal), "field") == Some(JStr(ValueName))
    ensures r.Ok? && Truthy(stack) ==> EncKey(r.value.1, ValueAxis(horizontal), "stack") == Some(StackValue(stack))
    ensures r.Ok? && !Melts(bar, value) ==> r.value.0 == data
    ensures r.Ok? && Melts(bar, value) ==> |r.value.0.rows| == |data.rows| * |value.names|
  {
    var m :- MaybeMelt(data, bar, value, legend, [opacity]);
    if group.BySeries? && !m.melted then Err(GroupNeedsWideData)
    else Ok((m.data, MeltedBars(data, m, bar, color, opacity, legend, group, stack, horizontal)))
  }

  /** Every bar chart has these six channels, x and y dicts, and the facet
      channel grouping does not use empty. */
  predicate BarShape(channels: Dict, horizontal: bool) {
    && channels.Keys == {"x", "y", "color", "opacity", "column", "row"}
    && channels["x"].JObj? && channels["y"].JObj?
    && channels[SpareFacet(horizontal)] == JNull
  }

  /** The bar channels over a melt outcome. */
  function MeltedBars(
    data: Table, m: Melt, bar: ChannelArg, color: ChannelArg, opacity: ChannelArg,
    legend: Json, group: Grouping, stack: Json, horizontal: bool): (r: Dict)
    requires ValidTable(data) && ValidTable(m.data)
    requires group.BySeries? ==> m.seriesEnc.JObj?
    ensures BarShape(r, horizontal)
    ensures !group.BySeries? ==> r[CategoryAxis(horizontal)] == JObj(Clean(data, bar, map["title" := JNull]))
    ensures group.BySeries? ==>
      && r[CategoryAxis(horizontal)] == r["color"]
      && r[FacetAxis(horizontal)] == JObj(Clean(data, bar, map["title" := JNull])["spacing" := JInt(10)])
    ensures "field" in m.valueEnc ==> EncKey(r, ValueAxis(horizontal), "field") == Some(m.valueEnc["field"])
    ensures Truthy(stack) ==> EncKey(r, ValueAxis(horizontal), "stack") == Some(StackValue(stack))
  {
    var series := if ArgTruthy(color) then JObj(Clean(m.data, SeriesAlias(color), map["legend" := legend])) else m.seriesEnc;
    var (category, facet) := BarGrouping(m.data, Clean(data, bar, map["title" := JNull]), series, group);
    BarLayout(category, JObj(BarStack(m.valueEnc, stack)), series, JObj(Clean(m.data, opacity, map[])), facet, horizontal)
  }

  /** The channels of a bar chart with x and y swapped and columns and
      rows swapped; a dict lacking one of these is left as it is. */
  function Transposed(channels: Dict): (r: Dict)
    ensures r.Keys == channels.Keys
    ensures {"x", "y", "column", "row"} <= channels.Keys ==>
      && r["x"] == channels["y"] && r["y"] == channels["x"]
      && r["column"] == channels["row"] && r["row"] == channels["column"]
    ensures forall k :: k in channels && k !in {"x", "y", "column", "row"} ==> r[k] == channels[k]
  {
    if {"x", "y", "column", "row"} <= channels.Keys then
      channels["x" := channels["y"]]["y" := channels["x"]]["column" := channels["row"]]["row" := channels["column"]]
    else channels
  }

  /** Laying the same encodings out horizontally transposes the vertical
      layout. */
  lemma LayoutTransposed(category: Json, length: Json, color: Json, opacity: Json, facet: Json)
    ensures BarLayout(category, length, color, opacity, facet, true)
         == Transposed(BarLayout(category, length, color, opacity, facet, false))
  {
    var h := BarLayout(category, length, color, opacity, facet, true);
    var t := Transposed(BarLayout(category, length, color, opacity, facet, false));
    assert forall k :: k in t ==> h[k] == t[k];
  }

  /** Horizontal bars are vertical bars transposed: same failures, same
      data, and the channels swapped pairwise. */
  lemma BarOrientation(
    data: Table, bar: ChannelArg, value: SeriesArg, color: ChannelArg, opacity: ChannelArg,
    legend: Json, group: Grouping, stack: Json)
    requires ValidTable(data)
    requires MeltInputsOk(data, bar, value, [opacity])
    ensures BarChannels(data, bar, value, color, opacity, legend, group, stack, true).Ok?
        == BarChannels(data, bar, value, color, opacity, legend, group, stack, false).Ok?
    ensures BarChannels(data, bar, value, color, opacity, legend, group, stack, true).Ok? ==>
      && BarChannels(data, bar, value, color, opacity, legend, group, stack, true).value.0
         == BarChannels(data, bar, value, color, opacity, legend, group, stack, false).value.0
      && BarChannels(data, bar, value, color, opacity, legend, group, stack, true).value.1
         == Transposed(BarChannels(data, bar, value, color, opacity, legend, group, stack, false).value.1)
  {
    var mm := MaybeMelt(data, bar, value, legend, [opacity]);
    if mm.Ok? && !(group.BySeries? && !mm.value.melted) {
      var m := mm.value;
      assert BarChannels(data, bar, value, color, opacity, legend, group, stack, true)
          == Ok((m.data, MeltedBars(data, m, bar, color, opacity, legend, group, stack, true)));
      assert BarChannels(data, bar, value, color, opacity, legend, group, stack, false)
          == Ok((m.data, MeltedBars(data, m, bar, color, opacity, legend, group, stack, false)));
      MeltedBarsTransposed(data, m, bar, color, opacity, legend, group, stack);
    }
  }

  lemma MeltedBarsTransposed(
    data: Table, m: Melt, bar: ChannelArg, color: ChannelArg, opacity: ChannelArg,
    legend: Json, group: Grouping, stack: Json)
    requires ValidTable(data) && ValidTable(m.data)
    requires group.BySeries? ==> m.seriesEnc.JObj?
    ensures MeltedBars(data, m, bar, color, opacity, legend, group, stack, true)
         == Transposed(MeltedBars(data, m, bar, color, opacity, legend, group, stack, false))
  {
    var series := if ArgTruthy(color) then JObj(Clean(m.data, SeriesAlias(color), map["legend" := legend])) else m.seriesEnc;
    var (category, facet) := BarGrouping(m.data, Clean(data, bar, map["title" := JNull]), series, group);
    LayoutTransposed(category, JObj(BarStack(m.valueEnc, stack)), series, JObj(Clean(m.data, opacity, map[])), facet);
  }

  /** A colour argument "value" colours by series: on a melted table it
      resolves to the nominal `variable` field. */
  lemma BarValueColorIsSeries(long: Table, legend: Json)
    requires ValidTable(long) && VarName in long.columns && long.dtypes[VarName] == "object"
    ensures Clean(long, SeriesAlias(Str(ValueName)), map["legend" := legend])
         == map["field" := JStr(VarName), "type" := JStr(Nominal), "legend" := legend]
  {
    assert SplitSuffix(VarName).1.None?;
  }

  /** `bar_chart`. */
  function BarChart(
    data: Table, bar: ChannelArg, value: SeriesArg, color: ChannelArg, opacity: ChannelArg,
    group: Grouping, stack: Json, horizontal: bool, frame: Frame, legend: Option<string>, panZoom: Option<string>)
    : (r: Result<Chart, Failure>)
    requires ValidTable(data)
    requires MeltInputsOk(data, bar, value, [opacity])
    ensures r.Err? <==> (Melts(bar, value) && ReservedTaken(data)) || (group.BySeries? && !Melts(bar, value))
    ensures group.BySeries? && !Melts(bar, value) ==> r == Err(GroupNeedsWideData)
    ensures r.Ok? ==> r.value.useContainerWidth == (frame.useContainerWidth || horizontal)
    ensures r.Ok? ==> OuterMeta(r.value.spec, frame, panZoom == Some("minimap"))
    ensures r.Ok? && panZoom != Some("minimap") ==>
      && r.value.spec.Keys == {"mark", "encoding", "data", "width", "height", "title"}
      && r.value.spec["mark"] == Mark("bar")
    ensures r.Ok? && panZoom == Some("minimap") ==>
      && IsConcat(r.value.spec, if horizontal then "right" else "top")
      && "mark" !in r.value.spec && "encoding" !in r.value.spec
    ensures r.Ok? && panZoom == Some("minimap") ==> var loc := if horizontal then "right" else "top";
      && IsConcat(r.value.spec, loc)
      && "transform" in MainView(r.value.spec, loc) && MainView(r.value.spec, loc)["transform"] == BrushFilter()
      && "selection" !in MainView(r.value.spec, loc)
      && "selection" in MiniView(r.value.spec, loc) && MiniView(r.value.spec, loc)["selection"] == BrushSelection(BarBrush(horizontal))
  {
    var (long, channels) :- BarChannels(data, bar, value, color, opacity, LegendDict(legend), group, stack, horizontal);
    Ok(Chart(BarSpec(long, channels, frame, panZoom, horizontal), frame.useContainerWidth || horizontal))
  }

  /** The specification of a bar chart over resolved channels: no
      selection in any pan/zoom mode, and in minimap mode a filtering
      minimap at the right of horizontal bars or on top of vertical ones. */
  function BarSpec(long: Table, channels: Dict, frame: Frame, panZoom: Option<string>, horizontal: bool): (r: Dict)
    requires BarShape(channels, horizontal)
    ensures OuterMeta(r, frame, panZoom == Some("minimap")) && r["data"] == JData(long)
    ensures panZoom != Some("minimap") ==>
      && r.Keys == {"mark", "encoding", "data", "width", "height", "title"}
      && r["mark"] == Mark("bar") && r["encoding"] == JObj(channels)
    ensures panZoom == Some("minimap") ==>
      && IsConcat(r, if horizontal then "right" else "top")
      && "mark" !in r && "encoding" !in r
    ensures panZoom == Some("minimap") ==> var loc := if horizontal then "right" else "top";
      && IsConcat(r, loc)
      && "transform" in MainView(r, loc) && MainView(r, loc)["transform"] == BrushFilter()
      && "selection" !in MainView(r, loc)
      && "selection" in MiniView(r, loc) && MiniView(r, loc)["selection"] == BrushSelection(BarBrush(horizontal))
  {
    var spec := BarPlot(long, channels, frame);
    if panZoom == Some("minimap") then BarMinimap(spec, channels, horizontal)
    else spec
  }

  /** The bar mark over the channels, under the meta keys. */
  function BarPlot(long: Table, channels: Dict, frame: Frame): (r: Dict)
    ensures r.Keys == {"mark", "encoding", "data", "width", "height", "title"}
    ensures r["mark"] == Mark("bar") && r["encoding"] == JObj(channels)
    ensures OuterMeta(r, frame, false) && r["data"] == JData(long)
  {
    map["mark" := Mark("bar"), "encoding" := JObj(channels)] + Meta(long, frame)
  }

  /** A bar chart's minimap: the bars filtered by the brush over the
      category axis, with no selection of their own. */
  function BarMinimap(spec: Dict, channels: Dict, horizontal: bool): (r: Dict)
    requires "encoding" in spec && spec["encoding"] == JObj(channels)
    requires BarShape(channels, horizontal) && "selection" !in spec
    ensures var loc := if horizontal then "right" else "top";
      && IsConcat(r, loc)
      && "transform" in MainView(r, loc) && MainView(r, loc)["transform"] == BrushFilter()
      && "selection" !in MainView(r, loc)
      && "selection" in MiniView(r, loc) && MiniView(r, loc)["selection"] == BrushSelection(BarBrush(horizontal))
    ensures "mark" !in r && "encoding" !in r
    ensures "data" in spec ==> "data" in r && r["data"] == spec["data"]
    ensures "title" in spec ==> "title" in r && r["title"] == spec["title"]
  {
    var loc := if horizontal then "right" else "top";
    assert HasChannel(spec, "x") && HasChannel(spec, "y");
    AddMinimapViews(spec, BarBrush(horizontal), loc, true);
    MinimapView(spec, BarBrush(horizontal), loc, true);
    assert "selection" !in Inner(spec);
    AddMinimapOuter(spec, BarBrush(horizontal), loc, true);
    AddMinimap(spec, BarBrush(horizontal), loc, true)
  }

  /** The channel a bar chart's minimap brushes: the category axis. */
  function BarBrush(horizontal: bool): seq<string> {
    if horizontal then ["y"] else ["x"]
  }

  // ---------------------------------------------------------------------
  // Scatter and event charts

  /** A y argument whose custom dict (if any) has a dict scale, if any. */
  predicate SeriesScaleOk(y: SeriesArg) {
    y.Single? ==> ScaleOk(y.arg)
  }

  /** The y encoding of a melt outcome keeps a custom dict's dict scale;
      a melted or list y has no scale at all. */
  lemma MeltKeepsScaleDict(data: Table, x: ChannelArg, y: SeriesArg, legend: Json, keep: seq<ChannelArg>)
    requires ValidTable(data) && MeltInputsOk(data, x, y, keep)
    requires MaybeMelt(data, x, y, legend, keep).Ok?
    ensures var e := MaybeMelt(data, x, y, legend, keep).value.valueEnc; SeriesScaleOk(y) && "scale" in e ==> e["scale"].JObj?
  {
    if !Melts(x, y) {
      SeriesKeepsScaleDict(data, y);
    } else {
      NoScaleInValueKeys(MaybeMelt(data, x, y, legend, keep).value.valueEnc);
    }
  }

  lemma NoScaleInValueKeys(e: Dict)
    requires e.Keys == {"field", "type", "title"}
    ensures "scale" !in e
  {
  }

  lemma SeriesKeepsScaleDict(data: Table, y: SeriesArg)
    requires ValidTable(data)
    ensures var e := CleanSeries(data, y); SeriesScaleOk(y) && "scale" in e ==> e["scale"].JObj?
  {
    if y.Single? {
      CleanKeepsScaleDict(data, y.arg, map[]);
    }
  }

  /** The five channels of a scatter chart around a given colour encoding. */
  function ScatterEncoding(m: Melt, x: ChannelArg, color: Json, size: ChannelArg, opacity: ChannelArg, legend: Json): (r: Dict)
    requires ValidTable(m.data)
    ensures r.Keys == {"x", "y", "color", "size", "opacity"}
    ensures r["x"] == JObj(Clean(m.data, x, map[])) && r["y"] == JObj(m.valueEnc) && r["color"] == color
    ensures r["size"] == JObj(Clean(m.data, size, map["legend" := legend]))
    ensures r["opacity"] == JObj(Clean(m.data, opacity, map["legend" := legend]))
    ensures ScaleOk(x) && ("scale" in m.valueEnc ==> m.valueEnc["scale"].JObj?) ==> Linkable(r, true)
  {
    CleanKeepsScaleDict(m.data, x, map[]);
    map[
      "x" := JObj(Clean(m.data, x, map[])),
      "y" := JObj(m.valueEnc),
      "color" := color,
      "size" := JObj(Clean(m.data, size, map["legend" := legend])),
      "opacity" := JObj(Clean(m.data, opacity, map["legend" := legend]))]
  }

  /** `scatter_chart`'s channels as the code builds them: the colour
      channel is always the melt's series encoding, and the colour
      argument is never read. */
  function ScatterChannelsAsWritten(
    data: Table, x: ChannelArg, y: SeriesArg, color: ChannelArg, size: ChannelArg, opacity: ChannelArg, legend: Json)
    : (r: Result<(Table, Dict), Failure>)
    requires ValidTable(data)
    requires MeltInputsOk(data, x, y, [size, opacity])
    ensures r.Err? <==> Melts(x, y) && ReservedTaken(data)
    ensures r.Ok? ==> r.value.1.Keys == {"x", "y", "color", "size", "opacity"}
    ensures r.Ok? ==> r.value.1["color"] == if Melts(x, y) then JObj(map["field" := JStr(VarName), "title" := JNull, "legend" := legend]) else JNull
  {
    var m :- MaybeMelt(data, x, y, legend, [size, opacity]);
    Ok((m.data, ScatterEncoding(m, x, m.seriesEnc, size, opacity, legend)))
  }

  /** As written, any two colour arguments give the same scatter channels. */
  lemma ScatterColorIgnored(
    data: Table, x: ChannelArg, y: SeriesArg, c1: ChannelArg, c2: ChannelArg, size: ChannelArg, opacity: ChannelArg, legend: Json)
    requires ValidTable(data)
    requires MeltInputsOk(data, x, y, [size, opacity])
    ensures ScatterChannelsAsWritten(data, x, y, c1, size, opacity, legend)
         == ScatterChannelsAsWritten(data, x, y, c2, size, opacity, legend)
  {
  }

  /** `scatter_chart`'s channels with the colour argument honoured as the
      line and area charts honour theirs: a truthy colour argument wins
      over the series encoding. */
  function ScatterChannels(
    data: Table, x: ChannelArg, y: SeriesArg, color: ChannelArg, size: ChannelArg, opacity: ChannelArg, legend: Json)
    : (r: Result<(Table, Dict), Failure>)
    requires ValidTable(data)
    requires MeltInputsOk(data, x, y, [size, opacity])
    ensures r.Err? <==> Melts(x, y) && ReservedTaken(data)
    ensures r.Ok? ==> ValidTable(r.value.0) && r.value.1.Keys == {"x", "y", "color", "size", "opacity"}
    ensures r.Ok? && ArgTruthy(color) ==> r.value.1["color"] == JObj(Clean(r.value.0, color, map["legend" := legend]))
    ensures r.Ok? && !ArgTruthy(color) ==> r == ScatterChannelsAsWritten(data, x, y, color, size, opacity, legend)
    ensures r.Ok? && ScaleOk(x) && SeriesScaleOk(y) ==> Linkable(r.value.1, true)
    ensures r.Ok? && !Melts(x, y) ==> r.value.0 == data
    ensures r.Ok? && Melts(x, y) ==> |r.value.0.rows| == |data.rows| * |y.names|
  {
    var m :- MaybeMelt(data, x, y, legend, [size, opacity]);
    var series := if ArgTruthy(color) then JObj(Clean(m.data, color, map["legend" := legend])) else m.seriesEnc;
    MeltKeepsScaleDict(data, x, y, legend, [size, opacity]);
    Ok((m.data, ScatterEncoding(m, x, series, size, opacity, legend)))
  }

  /** A table with columns a and b (integers) and k (strings). */
  function ColorDemo(): (r: Table)
    ensures ValidTable(r)
  {
    Table(["a", "b", "k"], map["a" := "int64", "b" := "int64", "k" := "object"], [])
  }

  /** A scatter of b against a coloured by column k: as written the colour
      channel is null; the corrected channels colour by the nominal field k. */
  lemma ScatterColorDropped(legend: Json)
    ensures ScatterChannelsAsWritten(ColorDemo(), Str("a"), Single(Str("b")), Str("k"), Absent, Absent, legend).Ok?
    ensures ScatterChannelsAsWritten(ColorDemo(), Str("a"), Single(Str("b")), Str("k"), Absent, Absent, legend).value.1["color"] == JNull
    ensures ScatterChannels(ColorDemo(), Str("a"), Single(Str("b")), Str("k"), Absent, Absent, legend).Ok?
    ensures ScatterChannels(ColorDemo(), Str("a"), Single(Str("b")), Str("k"), Absent, Absent, legend).value.1["color"]
         == JObj(map["field" := JStr("k"), "type" := JStr(Nominal), "legend" := legend])
  {
    var t := ColorDemo();
    assert SplitSuffix("k").1.None?;
    assert GuessType(t, "k") == AsField("k", Some(Nominal));
    assert Clean(t, Str("k"), map["legend" := legend]) == map["field" := JStr("k"), "type" := JStr(Nominal), "legend" := legend];
  }

  /** `scatter_chart`, with the colour argument honoured. */
  function ScatterChart(
    data: Table, x: ChannelArg, y: SeriesArg, color: ChannelArg, size: ChannelArg, opacity: ChannelArg,
    notes: Notes, frame: Frame, legend: Option<string>, panZoom: Option<string>)
    : (r: Result<Chart, Failure>)
    requires ValidTable(data)
    requires MeltInputsOk(data, x, y, [size, opacity])
    requires panZoom == Some("minimap") ==> !Annotates(notes) && ScaleOk(x) && SeriesScaleOk(y) && Sized(frame)
    ensures r.Err? <==> Melts(x, y) && ReservedTaken(data)
    ensures r.Ok? ==> r.value.useContainerWidth == frame.useContainerWidth
    ensures r.Ok? ==> PlainPlot(r.value.spec, Mark("circle"), panZoom, notes)
    ensures r.Ok? ==> OuterMeta(r.value.spec, frame, panZoom == Some("minimap"))
    ensures r.Ok? && !Melts(x, y) ==> r.value.spec["data"] == JData(data)
    ensures r.Ok? && Melts(x, y) ==> |r.value.spec["data"].table.rows| == |data.rows| * |y.names|
    ensures r.Ok? && !Annotates(notes) && panZoom != Some("minimap") ==>
      r.value.spec["encoding"] == JObj(ScatterChannels(data, x, y, color, size, opacity, LegendDict(legend)).value.1)
    ensures r.Ok? && panZoom == Some("minimap") ==>
      && IsConcat(r.value.spec, "bottom")
      && "selection" in MiniView(r.value.spec, "bottom")
      && MiniView(r.value.spec, "bottom")["selection"] == BrushSelection(["x", "y"])
  {
    var (long, channels) :- ScatterChannels(data, x, y, color, size, opacity, LegendDict(legend));
    Ok(Chart(SeriesSpec(Mark("circle"), long, channels, frame, notes, panZoom, true), frame.useContainerWidth))
  }

  /** The channels of an event chart and of the scatter view of
      `scatter_hist`: every argument resolved against the table as given,
      without melting. */
  function PlainChannels(data: Table, x: ChannelArg, y: ChannelArg, color: ChannelArg, size: ChannelArg, opacity: ChannelArg, legend: Json): (r: Dict)
    requires ValidTable(data)
    ensures r.Keys == {"x", "y", "color", "size", "opacity"}
    ensures r["x"] == JObj(Clean(data, x, map[])) && r["y"] == JObj(Clean(data, y, map[]))
    ensures r["color"] == JObj(Clean(data, color, map["legend" := legend]))
    ensures r["size"] == JObj(Clean(data, size, map["legend" := legend]))
    ensures r["opacity"] == JObj(Clean(data, opacity, map["legend" := legend]))
    ensures ScaleOk(x) ==> Linkable(r, false)
  {
    CleanKeepsScaleDict(data, x, map[]);
    map[
      "x" := JObj(Clean(data, x, map[])),
      "y" := JObj(Clean(data, y, map[])),
      "color" := JObj(Clean(data, color, map["legend" := legend])),
      "size" := JObj(Clean(data, size, map["legend" := legend])),
      "opacity" := JObj(Clean(data, opacity, map["legend" := legend]))]
  }

  /** Ticks of the given thickness with tooltips on: the same tooltip
      setting as every other mark, plus the thickness. */
  function TickMark(thickness: int): (r: Json)
    ensures r.JObj? && Mark("tick").JObj?
    ensures r.fields == Mark("tick").fields["thickness" := JInt(thickness)]
  {
    JObj(map["type" := JStr("tick"), "tooltip" := JBool(true), "thickness" := JInt(thickness)])
  }

  /** `event_chart`. */
  function EventChart(
    data: Table, x: ChannelArg, y: ChannelArg, color: ChannelArg, size: ChannelArg, opacity: ChannelArg, thickness: int,
    notes: Notes, frame: Frame, legend: Option<string>, panZoom: Option<string>)
    : (r: Chart)
    requires ValidTable(data)
    requires panZoom == Some("minimap") ==> !Annotates(notes) && ScaleOk(x)
    ensures r.useContainerWidth == frame.useContainerWidth
    ensures PlainPlot(r.spec, TickMark(thickness), panZoom, notes)
    ensures OuterMeta(r.spec, frame, panZoom == Some("minimap")) && r.spec["data"] == JData(data)
  {
    Chart(SeriesSpec(TickMark(thickness), data, PlainChannels(data, x, y, color, size, opacity, LegendDict(legend)), frame, notes, panZoom, false),
          frame.useContainerWidth)
  }

  /** An event chart encodes like a (corrected) scatter chart with a single
      y argument and a colour argument: the two differ only in the mark. */
  lemma EventLikeScatter(data: Table, x: ChannelArg, y: ChannelArg, color: ChannelArg, size: ChannelArg, opacity: ChannelArg, legend: Json)
    requires ValidTable(data)
    requires y.Str? || y.Obj?
    requires ArgTruthy(color)
    ensures MeltInputsOk(data, x, Single(y), [size, opacity])
    ensures ScatterChannels(data, x, Single(y), color, size, opacity, legend)
         == Ok((data, PlainChannels(data, x, y, color, size, opacity, legend)))
  {
    var s := ScatterChannels(data, x, Single(y), color, size, opacity, legend).value.1;
    var e := PlainChannels(data, x, y, color, size, opacity, legend);
    assert s.Keys == e.Keys;
    assert forall k :: k in s ==> s[k] == e[k];
  }

  // ---------------------------------------------------------------------
  // Pie and donut charts

  /** `_pie_spec`: arcs whose angle encodes theta and whose colour has no
      title, with the view's outline off. */
  function PieSpec(data: Table, theta: ChannelArg, color: ChannelArg, legend: Option<string>): (r: Dict)
    requires ValidTable(data)
    ensures r.Keys == {"mark", "view", "encoding"}
    ensures r["mark"] == Mark("arc") && r["view"] == JObj(map["stroke" := JNull])
    ensures r["encoding"] == JObj(PieChannels(data, theta, color, legend))
  {
    map[
      "mark" := Mark("arc"),
      "view" := JObj(map["stroke" := JNull]),
      "encoding" := JObj(PieChannels(data, theta, color, legend))]
  }

  /** The channels of a pie: theta as given, and a colour without title
      that carries the chart's legend. */
  function PieChannels(data: Table, theta: ChannelArg, color: ChannelArg, legend: Option<string>): (r: Dict)
    requires ValidTable(data)
    ensures r.Keys == {"theta", "color"}
    ensures r["theta"] == JObj(Clean(data, theta, map[]))
    ensures !color.Obj? ==>
      EncKey(r, "color", "title") == Some(JNull)
      && EncKey(r, "color", "legend") == Some(LegendDict(legend))
  {
    map["theta" := JObj(Clean(data, theta, map[])), "color" := JObj(PieColor(data, color, legend))]
  }

  /** The colour encoding of a pie: untitled, with the chart's legend. */
  function PieColor(data: Table, color: ChannelArg, legend: Option<string>): (r: Dict)
    requires ValidTable(data)
    ensures !color.Obj? ==>
      && "title" in r && r["title"] == JNull
      && "legend" in r && r["legend"] == LegendDict(legend)
  {
    var colorOpts := map["title" := JNull, "legend" := LegendDict(legend)];
    CleanKeepsOption(data, color, colorOpts, "title");
    CleanKeepsOption(data, color, colorOpts, "legend");
    Clean(data, color, colorOpts)
  }

  /** An option given to a string, number or absent argument survives
      cleaning, unless it is the `value` a non-column string sets. */
  lemma CleanKeepsOption(data: Table, arg: ChannelArg, opts: Dict, key: string)
    requires ValidTable(data) && key in opts && key != "value"
    ensures !arg.Obj? ==> key in Clean(data, arg, opts) && Clean(data, arg, opts)[key] == opts[key]
  {
  }

  /** `pie_chart`. */
  function PieChart(data: Table, theta: ChannelArg, color: ChannelArg, frame: Frame, legend: Option<string>): (r: Chart)
    requires ValidTable(data)
    ensures r.useContainerWidth == frame.useContainerWidth
    ensures "mark" in r.spec && r.spec["mark"] == Mark("arc")
    ensures OuterMeta(r.spec, frame, false) && r.spec["data"] == JData(data)
  {
    var spec := PieSpec(data, theta, color, legend);
    PlotOverMeta(spec, data, frame);
    Chart(spec + Meta(data, frame), frame.useContainerWidth)
  }

  /** The inner radius of a donut: a quarter of a truthy height, rounded
      down, and otherwise a quarter of the renderer's default height 200. */
  function InnerRadius(height: Option<int>): (r: int)
    ensures height.Some? && height.value != 0 ==> 4 * r <= height.value < 4 * r + 4
    ensures height.None? || height.value == 0 ==> r == 50
  {
    if height.Some? && height.value != 0 then height.value / 4 else 50
  }

  /** `donut_chart`. */
  function DonutChart(data: Table, theta: ChannelArg, color: ChannelArg, frame: Frame, legend: Option<string>): (r: Chart)
    requires ValidTable(data)
    ensures r.useContainerWidth == frame.useContainerWidth
    ensures "mark" in r.spec && r.spec["mark"].JObj? && "innerRadius" in r.spec["mark"].fields
    ensures r.spec["mark"].fields["innerRadius"] == JInt(InnerRadius(frame.height))
    ensures OuterMeta(r.spec, frame, false) && r.spec["data"] == JData(data)
  {
    var pie := PieSpec(data, theta, color, legend);
    var mark := JObj(pie["mark"].fields["innerRadius" := JInt(InnerRadius(frame.height))]);
    PlotOverMeta(pie["mark" := mark], data, frame);
    Chart(pie["mark" := mark] + Meta(data, frame), frame.useContainerWidth)
  }

  /** `b` is `a` with the inner radius set on its mark. */
  predicate WithHole(a: Dict, b: Dict, radius: Json) {
    "mark" in a && a["mark"].JObj? && b == a["mark" := JObj(a["mark"].fields["innerRadius" := radius])]
  }

  /** A donut is the pie with a hole: the same specification except that
      the mark also carries the inner radius. */
  lemma DonutIsPieWithHole(data: Table, theta: ChannelArg, color: ChannelArg, frame: Frame, legend: Option<string>)
    requires ValidTable(data)
    ensures DonutChart(data, theta, color, frame, legend).useContainerWidth
         == PieChart(data, theta, color, frame, legend).useContainerWidth
    ensures WithHole(PieChart(data, theta, color, frame, legend).spec, DonutChart(data, theta, color, frame, legend).spec,
                     JInt(InnerRadius(frame.height)))
  {
    PieSpecOfChart(data, theta, color, frame, legend);
    DonutSpecOfChart(data, theta, color, frame, legend);
    PieHole(PieSpec(data, theta, color, legend), Meta(data, frame), JInt(InnerRadius(frame.height)));
  }

  /** Both charts put the meta keys over the pie's plot, the donut after
      setting the inner radius. */
  lemma PieSpecOfChart(data: Table, theta: ChannelArg, color: ChannelArg, frame: Frame, legend: Option<string>)
    requires ValidTable(data)
    ensures PieChart(data, theta, color, frame, legend).useContainerWidth == frame.useContainerWidth
    ensures PieChart(data, theta, color, frame, legend).spec == PieSpec(data, theta, color, legend) + Meta(data, frame)
  {
  }

  lemma DonutSpecOfChart(data: Table, theta: ChannelArg, color: ChannelArg, frame: Frame, legend: Option<string>)
    requires ValidTable(data)
    ensures DonutChart(data, theta, color, frame, legend).useContainerWidth == frame.useContainerWidth
    ensures var spec := PieSpec(data, theta, color, legend);
      DonutChart(data, theta, color, frame, legend).spec
      == spec["mark" := JObj(spec["mark"].fields["innerRadius" := JInt(InnerRadius(frame.height))])] + Meta(data, frame)
  {
  }

  /** Putting the meta keys over a plot with an arc mark keeps the hole. */
  lemma PieHole(plot: Dict, meta: Dict, radius: Json)
    requires "mark" in plot && plot["mark"] == Mark("arc")
    requires meta.Keys == {"data", "width", "height", "title"}
    ensures WithHole(plot + meta, plot["mark" := JObj(plot["mark"].fields["innerRadius" := radius])] + meta, radius)
  {
    HoleAfterMerge(plot, plot["mark" := JObj(plot["mark"].fields["innerRadius" := radius])], meta, radius);
  }

  /** A mark the meta keys do not override. */
  lemma MarkAfterMerge(plot: Dict, meta: Dict)
    requires "mark" in plot && "mark" !in meta
    ensures "mark" in plot + meta && (plot + meta)["mark"] == plot["mark"]
  {
  }

  /** Setting the inner radius of the plot's mark commutes with putting
      meta keys that hold no mark over the plot. */
  lemma HoleAfterMerge(plot: Dict, holed: Dict, meta: Dict, radius: Json)
    requires WithHole(plot, holed, radius) && "mark" !in meta
    ensures WithHole(plot + meta, holed + meta, radius)
  {
    MarkAfterMerge(plot, meta);
    OverrideThenMerge(plot, meta, "mark", JObj(plot["mark"].fields["innerRadius" := radius]));
  }

  /** Overriding a key the right-hand side of a merge does not have
      commutes with the merge. */
  lemma OverrideThenMerge(a: Dict, b: Dict, k: string, v: Json)
    requires k !in b
    ensures a[k := v] + b == (a + b)[k := v]
  {
    var lhs := a[k := v] + b;
    var rhs := (a + b)[k := v];
    assert lhs.Keys == rhs.Keys;
    assert forall j :: j in lhs ==> lhs[j] == rhs[j];
  }

  // ---------------------------------------------------------------------
  // Histograms

  /** A histogram specification: annotation layers, then the meta keys.
      Histograms take no minimap: the "minimap" pan/zoom mode is no pan/zoom
      at all, as both give no selection. */
  function HistSpec(mark: Json, data: Table, channels: Dict, frame: Frame, notes: Notes, panZoom: Option<string>): (r: Dict)
    ensures LayeredPlot(r, mark, panZoom, notes)
    ensures OuterMeta(r, frame, false) && r["data"] == JData(data)
    ensures !Annotates(notes) ==> "encoding" in r && r["encoding"] == JObj(channels)
    ensures !Annotates(notes) ==>
      r == map["mark" := mark, "encoding" := JObj(channels), "selection" := Selection(panZoom)] + Meta(data, frame)
  {
    var single := if panZoom == Some("minimap") then None else panZoom;
    assert Selection(single) == Selection(panZoom);
    SeriesSpec(mark, data, channels, frame, notes, single, false)
  }

  /** The channel lookups of a view read its encoding dict. */
  lemma ChannelKeys(spec: Dict, channels: Dict)
    requires "encoding" in spec && spec["encoding"] == JObj(channels)
    ensures forall ch, key :: ChannelKey(spec, ch, key) == EncKey(channels, ch, key)
    ensures forall ch :: ChannelOf(spec, ch) == (if ch in channels then Some(channels[ch]) else None)
  {
  }

  /** One axis of a time histogram: the date column bucketed by a time
      unit, as ordinal bands, untitled. Two axes on the same column differ
      in their time unit alone. */
  function TimeAxis(date: string, unit: Json): (r: Json)
    ensures r.JObj? && r.fields.Keys == {"field", "type", "timeUnit", "title", "axis"}
    ensures r.fields["field"] == JStr(date) && r.fields["type"] == JStr(Ordinal) && r.fields["timeUnit"] == unit
    ensures r.fields["title"] == JNull
  {
    JObj(map[
      "field" := JStr(date), "type" := JStr(Ordinal), "timeUnit" := unit,
      "title" := JNull, "axis" := JObj(map["tickBand" := JStr("extent")])])
  }

  /** Two time axes on the same column are equal exactly when their time
      units are. */
  lemma TimeAxesDiffer(date: string, u1: Json, u2: Json)
    ensures TimeAxis(date, u1) == TimeAxis(date, u2) <==> u1 == u2
    ensures TimeAxis(date, u2).fields == TimeAxis(date, u1).fields["timeUnit" := u2]
  {
    if TimeAxis(date, u1) == TimeAxis(date, u2) {
      assert TimeAxis(date, u1).fields["timeUnit"] == TimeAxis(date, u2).fields["timeUnit"];
    }
  }

  /** The channels of a time histogram: x and y bucket the same date
      column by their own time units; colour aggregates the rows of a cell. */
  function TimeHistChannels(data: Table, date: string, xUnit: Json, yUnit: Json, color: ChannelArg, aggregate: Json, legend: Json): (r: Dict)
    requires ValidTable(data)
    ensures r.Keys == {"x", "y", "color"}
    ensures EncKey(r, "x", "field") == EncKey(r, "y", "field") == Some(JStr(date))
    ensures EncKey(r, "x", "type") == EncKey(r, "y", "type") == Some(JStr(Ordinal))
    ensures EncKey(r, "x", "timeUnit") == Some(xUnit) && EncKey(r, "y", "timeUnit") == Some(yUnit)
    ensures !color.Obj? ==> EncKey(r, "color", "aggregate") == Some(aggregate)
  {
    var colorOpts := map["aggregate" := aggregate, "legend" := legend];
    CleanKeepsOption(data, color, colorOpts, "aggregate");
    map[
      "x" := TimeAxis(date, xUnit),
      "y" := TimeAxis(date, yUnit),
      "color" := JObj(Clean(data, color, colorOpts))]
  }

  /** `time_hist`. The legend argument is passed on as given. */
  function TimeHist(
    data: Table, date: string, xUnit: Json, yUnit: Json, color: ChannelArg, aggregate: Json,
    notes: Notes, frame: Frame, legend: Json, panZoom: Option<string>)
    : (r: Chart)
    requires ValidTable(data)
    ensures r.useContainerWidth == frame.useContainerWidth
    ensures LayeredPlot(r.spec, Mark("rect"), panZoom, notes)
    ensures OuterMeta(r.spec, frame, false) && r.spec["data"] == JData(data)
    ensures !Annotates(notes) ==>
      && ChannelKey(r.spec, "x", "field") == ChannelKey(r.spec, "y", "field") == Some(JStr(date))
      && ChannelKey(r.spec, "x", "timeUnit") == Some(xUnit) && ChannelKey(r.spec, "y", "timeUnit") == Some(yUnit)
  {
    var channels := TimeHistChannels(data, date, xUnit, yUnit, color, aggregate, legend);
    var spec := HistSpec(Mark("rect"), data, channels, frame, notes, panZoom);
    if !Annotates(notes) then ChannelKeys(spec, channels); Chart(spec, frame.useContainerWidth)
    else Chart(spec, frame.useContainerWidth)
  }

  /** The channels of an x-y histogram: both axes binned, colour
      aggregating the rows of a cell. */
  function XyHistChannels(data: Table, x: ChannelArg, y: ChannelArg, color: ChannelArg, aggregate: Json, xBin: Json, yBin: Json, legend: Json): (r: Dict)
    requires ValidTable(data)
    ensures r.Keys == {"x", "y", "color"}
    ensures !x.Obj? ==> EncKey(r, "x", "bin") == Some(xBin)
    ensures !y.Obj? ==> EncKey(r, "y", "bin") == Some(yBin)
    ensures !color.Obj? ==> EncKey(r, "color", "aggregate") == Some(aggregate)
  {
    var colorOpts := map["aggregate" := aggregate, "legend" := legend];
    CleanKeepsOption(data, x, map["bin" := xBin], "bin");
    CleanKeepsOption(data, y, map["bin" := yBin], "bin");
    CleanKeepsOption(data, color, colorOpts, "aggregate");
    map[
      "x" := JObj(Clean(data, x, map["bin" := xBin])),
      "y" := JObj(Clean(data, y, map["bin" := yBin])),
      "color" := JObj(Clean(data, color, colorOpts))]
  }

  /** `xy_hist`. The legend argument is passed on as given. */
  function XyHist(
    data: Table, x: ChannelArg, y: ChannelArg, color: ChannelArg, aggregate: Json, xBin: Json, yBin: Json,
    notes: Notes, frame: Frame, legend: Json, panZoom: Option<string>)
    : (r: Chart)
    requires ValidTable(data)
    ensures r.useContainerWidth == frame.useContainerWidth
    ensures LayeredPlot(r.spec, Mark("rect"), panZoom, notes)
    ensures OuterMeta(r.spec, frame, false) && r.spec["data"] == JData(data)
    ensures !Annotates(notes) && !x.Obj? ==> ChannelKey(r.spec, "x", "bin") == Some(xBin)
    ensures !Annotates(notes) && !y.Obj? ==> ChannelKey(r.spec, "y", "bin") == Some(yBin)
  {
    var channels := XyHistChannels(data, x, y, color, aggregate, xBin, yBin, legend);
    var spec := HistSpec(Mark("rect"), data, channels, frame, notes, panZoom);
    if !Annotates(notes) then ChannelKeys(spec, channels); Chart(spec, frame.useContainerWidth)
    else Chart(spec, frame.useContainerWidth)
  }

  /** A channel dict with x and y exchanged and every other channel kept. */
  function SwapXY(channels: Dict): (r: Dict)
    requires "x" in channels && "y" in channels
    ensures r.Keys == channels.Keys && r["x"] == channels["y"] && r["y"] == channels["x"]
    ensures forall k :: k in channels && k != "x" && k != "y" ==> r[k] == channels[k]
  {
    channels["x" := channels["y"]]["y" := channels["x"]]
  }

  /** Two histograms over the same mark, table, frame and notes, without
      annotations, differ only in their encodings. */
  lemma HistSpecEncoding(mark: Json, data: Table, c1: Dict, c2: Dict, frame: Frame, notes: Notes, panZoom: Option<string>)
    requires !Annotates(notes)
    ensures HistSpec(mark, data, c2, frame, notes, panZoom) == HistSpec(mark, data, c1, frame, notes, panZoom)["encoding" := JObj(c2)]
  {
    var p1 := map["mark" := mark, "encoding" := JObj(c1), "selection" := Selection(panZoom)];
    assert p1["encoding" := JObj(c2)] == map["mark" := mark, "encoding" := JObj(c2), "selection" := Selection(panZoom)];
    MergeUpdate(p1, Meta(data, frame), "encoding", JObj(c2));
  }

  /** Updating a key the right-hand dict lacks commutes with the merge. */
  lemma MergeUpdate(a: Dict, b: Dict, k: string, v: Json)
    requires k !in b
    ensures (a + b)[k := v] == a[k := v] + b
  {
    var lhs := (a + b)[k := v];
    var rhs := a[k := v] + b;
    assert lhs.Keys == rhs.Keys;
  }

  /** Exchanging the x and y entries of a three-channel display. */
  lemma SwapDisplay(a: Json, b: Json, c: Json)
    ensures SwapXY(map["x" := b, "y" := a, "color" := c]) == map["x" := a, "y" := b, "color" := c]
  {
    var l := SwapXY(map["x" := b, "y" := a, "color" := c]);
    assert l.Keys == {"x", "y", "color"};
  }

  /** Exchanging the two time units of a time histogram exchanges its x and
      y channels, and without annotations changes nothing else. */
  lemma TimeUnitsSwap(
    data: Table, date: string, xUnit: Json, yUnit: Json, color: ChannelArg, aggregate: Json,
    notes: Notes, frame: Frame, legend: Json, panZoom: Option<string>)
    requires ValidTable(data)
    ensures TimeHistChannels(data, date, yUnit, xUnit, color, aggregate, legend)
         == SwapXY(TimeHistChannels(data, date, xUnit, yUnit, color, aggregate, legend))
    ensures !Annotates(notes) ==>
      TimeHist(data, date, yUnit, xUnit, color, aggregate, notes, frame, legend, panZoom).spec
      == TimeHist(data, date, xUnit, yUnit, color, aggregate, notes, frame, legend, panZoom).spec["encoding" :=
           JObj(TimeHistChannels(data, date, yUnit, xUnit, color, aggregate, legend))]
  {
    var colorEnc := JObj(Clean(data, color, map["aggregate" := aggregate, "legend" := legend]));
    SwapDisplay(TimeAxis(date, yUnit), TimeAxis(date, xUnit), colorEnc);
    if !Annotates(notes) {
      var c1 := TimeHistChannels(data, date, xUnit, yUnit, color, aggregate, legend);
      var c2 := TimeHistChannels(data, date, yUnit, xUnit, color, aggregate, legend);
      HistSpecEncoding(Mark("rect"), data, c1, c2, frame, notes, panZoom);
    }
  }

  /** Exchanging x with y, and the x bin with the y bin, transposes an x-y
      histogram: its x and y channels trade places and, without
      annotations, nothing else changes. */
  lemma XyHistTransposes(
    data: Table, x: ChannelArg, y: ChannelArg, color: ChannelArg, aggregate: Json, xBin: Json, yBin: Json,
    notes: Notes, frame: Frame, legend: Json, panZoom: Option<string>)
    requires ValidTable(data)
    ensures XyHistChannels(data, y, x, color, aggregate, yBin, xBin, legend)
         == SwapXY(XyHistChannels(data, x, y, color, aggregate, xBin, yBin, legend))
    ensures !Annotates(notes) ==>
      XyHist(data, y, x, color, aggregate, yBin, xBin, notes, frame, legend, panZoom).spec
      == XyHist(data, x, y, color, aggregate, xBin, yBin, notes, frame, legend, panZoom).spec["encoding" :=
           JObj(XyHistChannels(data, y, x, color, aggregate, yBin, xBin, legend))]
  {
    var colorEnc := JObj(Clean(data, color, map["aggregate" := aggregate, "legend" := legend]));
    SwapDisplay(JObj(Clean(data, y, map["bin" := yBin])), JObj(Clean(data, x, map["bin" := xBin])), colorEnc);
    if !Annotates(notes) {
      var c1 := XyHistChannels(data, x, y, color, aggregate, xBin, yBin, legend);
      var c2 := XyHistChannels(data, y, x, color, aggregate, yBin, xBin, legend);
      HistSpecEncoding(Mark("rect"), data, c1, c2, frame, notes, panZoom);
    }
  }

  /** With a truthy bin argument, the x channel of an x-y histogram is the
      x channel `hist` builds from the same argument and bin; with a falsy
      one they differ only in `hist`'s default binning. */
  lemma XyHistBinsLikeHist(
    data: Table, x: ChannelArg, y: ChannelArg, color: ChannelArg, aggregate: Json, xBin: Json, yBin: Json, legend: Json)
    requires ValidTable(data)
    ensures Truthy(xBin) ==>
      XyHistChannels(data, x, y, color, aggregate, xBin, yBin, legend)["x"] == HistChannels(data, x, y, aggregate, xBin)["x"]
    ensures XyHistChannels(data, x, y, color, aggregate, Or(xBin, JBool(true)), yBin, legend)["x"]
         == HistChannels(data, x, y, aggregate, xBin)["x"]
  {
  }

  /** The channels of a histogram: x binned (a falsy bin argument means
      the default binning), y aggregated. */
  function HistChannels(data: Table, x: ChannelArg, y: ChannelArg, aggregate: Json, bin: Json): (r: Dict)
    requires ValidTable(data)
    ensures r.Keys == {"x", "y"}
    ensures !x.Obj? ==> EncKey(r, "x", "bin") == Some(if Truthy(bin) then bin else JBool(true))
    ensures y.Absent? ==> r["y"] == JObj(map["aggregate" := aggregate])
    ensures !y.Obj? ==> EncKey(r, "y", "aggregate") == Some(aggregate)
  {
    CleanKeepsOption(data, x, map["bin" := Or(bin, JBool(true))], "bin");
    CleanKeepsOption(data, y, map["aggregate" := aggregate], "aggregate");
    map[
      "x" := JObj(Clean(data, x, map["bin" := Or(bin, JBool(true))])),
      "y" := JObj(Clean(data, y, map["aggregate" := aggregate]))]
  }

  /** `hist`: bars over binned x, with y aggregated. */
  function Hist(
    data: Table, x: ChannelArg, y: ChannelArg, aggregate: Json, bin: Json,
    notes: Notes, frame: Frame, panZoom: Option<string>)
    : (r: Chart)
    requires ValidTable(data)
    ensures r.useContainerWidth == frame.useContainerWidth
    ensures LayeredPlot(r.spec, Mark("bar"), panZoom, notes)
    ensures OuterMeta(r.spec, frame, false) && r.spec["data"] == JData(data)
    ensures !Annotates(notes) && !x.Obj? ==> ChannelKey(r.spec, "x", "bin") == Some(if Truthy(bin) then bin else JBool(true))
    ensures !Annotates(notes) && y.Absent? ==> ChannelOf(r.spec, "y") == Some(JObj(map["aggregate" := aggregate]))
    ensures !Annotates(notes) && !y.Obj? ==> ChannelKey(r.spec, "y", "aggregate") == Some(aggregate)
  {
    var channels := HistChannels(data, x, y, aggregate, bin);
    var spec := HistSpec(Mark("bar"), data, channels, frame, notes, panZoom);
    if !Annotates(notes) then ChannelKeys(spec, channels); Chart(spec, frame.useContainerWidth)
    else Chart(spec, frame.useContainerWidth)
  }

  /** A falsy bin argument (None, False, 0) bins with the defaults, exactly
      as `bin=True` does. */
  lemma HistBinDefault(data: Table, x: ChannelArg, y: ChannelArg, aggregate: Json, bin: Json, notes: Notes, frame: Frame, panZoom: Option<string>)
    requires ValidTable(data)
    requires !Truthy(bin)
    ensures Hist(data, x, y, aggregate, bin, notes, frame, panZoom) == Hist(data, x, y, aggregate, JBool(true), notes, frame, panZoom)
  {
  }

  // ---------------------------------------------------------------------
  // Scatter plot with marginal histograms

  /** The value under `key` in a dict, if any. */
  function Lookup(d: Dict, key: string): Option<Json> {
    if key in d then Some(d[key]) else None
  }

  /** Options that name neither a field nor a type leave both as the
      argument resolves them: two such option sets give the same field and
      type. */
  lemma CleanSameField(data: Table, arg: ChannelArg, o1: Dict, o2: Dict)
    requires ValidTable(data)
    requires "field" !in o1 && "type" !in o1 && "field" !in o2 && "type" !in o2
    ensures Lookup(Clean(data, arg, o1), "field") == Lookup(Clean(data, arg, o2), "field")
    ensures Lookup(Clean(data, arg, o1), "type") == Lookup(Clean(data, arg, o2), "type")
  {
  }

  /** The options of the binned channel of a marginal histogram. */
  function BinOpts(bin: Json): (r: Dict)
    ensures "field" !in r && "type" !in r && "bin" in r && r["bin"] == Or(bin, JBool(true))
  {
    map["bin" := Or(bin, JBool(true)), "title" := JNull, "axis" := JNull]
  }

  /** The options of the aggregated channel of a marginal histogram. */
  function AggregateOpts(aggregate: Json): (r: Dict)
    ensures "field" !in r && "type" !in r
  {
    map["aggregate" := aggregate, "title" := JNull]
  }

  /** The central scatter view: sized and titled like the chart. */
  function ScatterView(data: Table, x: ChannelArg, y: ChannelArg, color: ChannelArg, size: ChannelArg, opacity: ChannelArg, frame: Frame, legend: Json): (r: Dict)
    requires ValidTable(data)
    ensures "width" in r && r["width"] == OptInt(frame.width)
    ensures "height" in r && r["height"] == OptInt(frame.height)
    ensures ChannelOf(r, "x") == Some(JObj(Clean(data, x, map[])))
    ensures ChannelOf(r, "y") == Some(JObj(Clean(data, y, map[])))
  {
    map[
      "mark" := Mark("circle"),
      "width" := OptInt(frame.width), "height" := OptInt(frame.height), "title" := OptStr(frame.title),
      "encoding" := JObj(PlainChannels(data, x, y, color, size, opacity, legend))]
  }

  /** The histogram above the scatter view: binned x, without title or
      axis, and aggregated y. */
  function TopHist(data: Table, x: ChannelArg, y: ChannelArg, aggregate: Json, xBin: Json, frame: Frame): (r: Dict)
    requires ValidTable(data)
    ensures "width" in r && r["width"] == OptInt(frame.width)
    ensures "height" in r && r["height"] == JInt(MiniChartSize)
    ensures ChannelOf(r, "x") == Some(JObj(Clean(data, x, BinOpts(xBin))))
    ensures ChannelOf(r, "y") == Some(JObj(Clean(data, y, AggregateOpts(aggregate))))
  {
    map[
      "mark" := Mark("bar"),
      "width" := OptInt(frame.width), "height" := JInt(MiniChartSize),
      "encoding" := JObj(map[
        "x" := JObj(Clean(data, x, BinOpts(xBin))),
        "y" := JObj(Clean(data, y, AggregateOpts(aggregate)))])]
  }

  /** The histogram right of the scatter view: aggregated x, and binned y
      without title or axis. */
  function SideHist(data: Table, x: ChannelArg, y: ChannelArg, aggregate: Json, yBin: Json, frame: Frame): (r: Dict)
    requires ValidTable(data)
    ensures "width" in r && r["width"] == JInt(MiniChartSize)
    ensures "height" in r && r["height"] == OptInt(frame.height)
    ensures ChannelOf(r, "x") == Some(JObj(Clean(data, x, AggregateOpts(aggregate))))
    ensures ChannelOf(r, "y") == Some(JObj(Clean(data, y, BinOpts(yBin))))
  {
    map[
      "mark" := Mark("bar"),
      "width" := JInt(MiniChartSize), "height" := OptInt(frame.height),
      "encoding" := JObj(map[
        "x" := JObj(Clean(data, x, AggregateOpts(aggregate))),
        "y" := JObj(Clean(data, y, BinOpts(yBin)))])]
  }

  /** The three views of a `scatter_hist` specification: the top
      histogram, the scatter view and the side histogram, if it has that
      shape. */
  function Panels(spec: Dict): Option<(Dict, Dict, Dict)> {
    if "vconcat" in spec && spec["vconcat"].JArr? && |spec["vconcat"].items| == 2
       && spec["vconcat"].items[0].JObj? && spec["vconcat"].items[1].JObj?
       && "hconcat" in spec["vconcat"].items[1].fields
       && spec["vconcat"].items[1].fields["hconcat"].JArr?
       && |spec["vconcat"].items[1].fields["hconcat"].items| == 2
       && spec["vconcat"].items[1].fields["hconcat"].items[0].JObj?
       && spec["vconcat"].items[1].fields["hconcat"].items[1].JObj?
    then Some((spec["vconcat"].items[0].fields,
               spec["vconcat"].items[1].fields["hconcat"].items[0].fields,
               spec["vconcat"].items[1].fields["hconcat"].items[1].fields))
    else None
  }

  /** A specification holding `top` above a row of `main` and `side`. */
  function Grid(data: Table, title: Json, top: Dict, main: Dict, side: Dict): (r: Dict)
    ensures "data" in r && r["data"] == JData(data) && "title" in r && r["title"] == title
    ensures "mark" !in r && "encoding" !in r
    ensures Panels(r) == Some((top, main, side))
  {
    map["data" := JData(data), "title" := title,
        "vconcat" := JArr([JObj(top), JObj(map["hconcat" := JArr([JObj(main), JObj(side)])])])]
  }

  /** `scatter_hist`: the histogram of x on top, and below it the scatter
      view with the histogram of y at its right. The pan/zoom argument is
      not read. */
  function ScatterHist(
    data: Table, x: ChannelArg, y: ChannelArg, color: ChannelArg, size: ChannelArg, opacity: ChannelArg,
    aggregate: Json, xBin: Json, yBin: Json, frame: Frame, legend: Option<string>)
    : (r: Chart)
    requires ValidTable(data)
    ensures r.useContainerWidth == frame.useContainerWidth
    ensures "data" in r.spec && r.spec["data"] == JData(data)
    ensures "title" in r.spec && r.spec["title"] == OptStr(frame.title)
    ensures "mark" !in r.spec && "encoding" !in r.spec
    ensures Panels(r.spec) == Some((TopHist(data, x, y, aggregate, xBin, frame),
                                    ScatterView(data, x, y, color, size, opacity, frame, LegendDict(legend)),
                                    SideHist(data, x, y, aggregate, yBin, frame)))
  {
    Chart(Grid(data, OptStr(frame.title),
               TopHist(data, x, y, aggregate, xBin, frame),
               ScatterView(data, x, y, color, size, opacity, frame, LegendDict(legend)),
               SideHist(data, x, y, aggregate, yBin, frame)),
          frame.useContainerWidth)
  }

  /** Two views read channel `ch` from the same field with the same type. */
  predicate SameField(v1: Dict, v2: Dict, ch: string) {
    && ChannelKey(v1, ch, "field") == ChannelKey(v2, ch, "field")
    && ChannelKey(v1, ch, "type") == ChannelKey(v2, ch, "type")
  }

  /** A view whose channel `ch` is `enc`, looked up through the view. */
  lemma ViewChannel(view: Dict, ch: string, enc: Dict, key: string)
    requires ChannelOf(view, ch) == Some(JObj(enc))
    ensures ChannelKey(view, ch, key) == Lookup(enc, key)
  {
  }

  /** Two views whose channel `ch` resolves the same field and type. */
  lemma ViewsSameField(v1: Dict, e1: Dict, v2: Dict, e2: Dict, ch: string)
    requires ChannelOf(v1, ch) == Some(JObj(e1)) && ChannelOf(v2, ch) == Some(JObj(e2))
    requires Lookup(e1, "field") == Lookup(e2, "field") && Lookup(e1, "type") == Lookup(e2, "type")
    ensures SameField(v1, v2, ch)
  {
    ViewChannel(v1, ch, e1, "field");
    ViewChannel(v1, ch, e1, "type");
    ViewChannel(v2, ch, e2, "field");
    ViewChannel(v2, ch, e2, "type");
  }

  /** The three views of a `scatter_hist` line up: the top histogram is as
      wide as the scatter view and the side histogram as high, both 50
      pixels deep, and all three read x and y from the same fields with
      the same types. The histograms bin with the defaults unless given a
      truthy bin argument. */
  lemma ScatterHistAligned(
    data: Table, x: ChannelArg, y: ChannelArg, color: ChannelArg, size: ChannelArg, opacity: ChannelArg,
    aggregate: Json, xBin: Json, yBin: Json, frame: Frame, legend: Option<string>)
    requires ValidTable(data)
    ensures Panels(ScatterHist(data, x, y, color, size, opacity, aggregate, xBin, yBin, frame, legend).spec).Some?
    ensures var (top, main, side) := Panels(ScatterHist(data, x, y, color, size, opacity, aggregate, xBin, yBin, frame, legend).spec).value;
      && top["width"] == main["width"] == OptInt(frame.width) && top["height"] == JInt(MiniChartSize)
      && side["height"] == main["height"] == OptInt(frame.height) && side["width"] == JInt(MiniChartSize)
      && SameField(top, main, "x") && SameField(side, main, "x")
      && SameField(top, main, "y") && SameField(side, main, "y")
      && (!x.Obj? ==> ChannelKey(top, "x", "bin") == Some(if Truthy(xBin) then xBin else JBool(true)))
      && (!y.Obj? ==> ChannelKey(side, "y", "bin") == Some(if Truthy(yBin) then yBin else JBool(true)))
  {
    var top := TopHist(data, x, y, aggregate, xBin, frame);
    var main := ScatterView(data, x, y, color, size, opacity, frame, LegendDict(legend));
    var side := SideHist(data, x, y, aggregate, yBin, frame);
    var xBinned, xAgg, xMain := Clean(data, x, BinOpts(xBin)), Clean(data, x, AggregateOpts(aggregate)), Clean(data, x, map[]);
    var yBinned, yAgg, yMain := Clean(data, y, BinOpts(yBin)), Clean(data, y, AggregateOpts(aggregate)), Clean(data, y, map[]);
    CleanSameField(data, x, BinOpts(xBin), map[]);
    CleanSameField(data, x, AggregateOpts(aggregate), map[]);
    CleanSameField(data, y, BinOpts(yBin), map[]);
    CleanSameField(data, y, AggregateOpts(aggregate), map[]);
    ViewsSameField(top, xBinned, main, xMain, "x");
    ViewsSameField(top, yAgg, main, yMain, "y");
    ViewsSameField(side, xAgg, main, xMain, "x");
    ViewsSameField(side, yBinned, main, yMain, "y");
    CleanKeepsOption(data, x, BinOpts(xBin), "bin");
    CleanKeepsOption(data, y, BinOpts(yBin), "bin");
    ViewChannel(top, "x", xBinned, "bin");
    ViewChannel(side, "y", yBinned, "bin");
  }
}
