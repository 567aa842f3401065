# plost chart builders in Dafny

This project models plost, a small plotting library for Streamlit. Each chart
builder takes a data frame and a few channel arguments and returns a Vega-Lite
specification. A channel argument can be a column name, an Altair-style
shorthand such as `"price:Q"`, a literal value or a custom encoding dict. The
specification is then handed to the renderer. The model covers what happens
between the arguments and the specification, as `plost/__init__.py` does it:

- **Encoding** covers type inference from shorthand suffixes and column
  storage types (`_split_encoding_suffix`, `_guess_string_encoding_type`), and
  resolution of one channel argument into an encoding dict (`_clean_encoding`).
- **Reshape** covers `_maybe_melt`: wide data with several value columns is
  melted into long rows with the reserved columns `variable` and `value`. It
  also defines an independent inverse (a pivot), which proves that the melt
  loses and invents nothing.
- **Compose** covers the pan/zoom selection, the legend dict and the
  annotation rule layers.
- **Minimap** covers `_add_minimap`: the split into plot and meta keys, the
  resized and axis-blanked minimap with its brush, and the main view linked to
  the brush by filter or by scale domain.
- **Charts** covers every public builder: line, area, bar, scatter, pie,
  donut, event, time_hist, xy_hist, hist and scatter_hist. Each one is a pure
  function returning the specification and the container-width flag that
  would be passed to `st.vega_lite_chart`.

The model's shapes:

- A specification is a `map<string, Json>`. A Python `None` stored under a key
  is that key mapped to `JNull`.
- A data frame is a `Table`: ordered column names, each column's pandas
  `dtype.name`, and rows as maps.
- A chart that the source refuses with an exception is an `Err`: a reserved
  melt column already present, or `group=True` on data that was not melted.
- Arguments the source would crash on in pandas or in dict indexing are
  excluded by preconditions. `MeltInputsOk` names the pandas cases.
  `MinimapReady` names the minimap cases: the channels it rewrites must be
  dicts, and a 2-D minimap needs integer sizes.

Where the library's documented behaviour and its code differ, the model
follows the code. The one exception is the scatter chart's colour argument
(see "## Findings"): the code as written is modelled next to a corrected
builder, and the corrected builder documents the intended behaviour.

- A list with a single column name still melts. Only a string or dict `y`,
  or a dict `x`, skips the melt (`Reshape.Melts`).
- `stack=False` is written into the area chart's y encoding as `false`, not
  as null. The bar chart drops every falsy stack argument
  (`Charts.StackPolicies`).
- `hist` with `bin=False` or no bin still bins with the defaults, because of
  `bin or True` (`Charts.HistBinDefault`).
- The docstrings of `event_chart` (line 892) and `xy_hist` (line 1101) say
  that a list y melts into several series. Neither builder calls
  `_maybe_melt`, so a list y is resolved by `_clean_encoding`, which returns
  just the options for a list, exactly as for None. In the model such a y is
  `Absent`.

## Model

| member | source | states |
|---|---|---|
| Encoding.SplitSuffix | plost/__init__.py:42-59 | A type is found exactly when the string is longer than two characters and ends in one of the five suffixes. The prefix is then non-empty and prefix + suffix is the input. Otherwise the string comes back unchanged with no type. |
| Encoding.SplitShorthand | plost/__init__.py:51-59 | Round trip: appending a known suffix to a non-empty name and splitting again gives back the name and that suffix's type. |
| Encoding.SuffixTypesDistinct | plost/__init__.py:42-48 | Every suffix names one of the five Vega-Lite field types, and two suffixes name the same type only if they are the same suffix. |
| Encoding.DtypeKind | plost/__init__.py:72-79 | Each of the three results holds if and only if its storage-type test is the first to succeed: the nominal set, then the numeric set, then the `datetime64` prefix. |
| Encoding.StringDtypeIsNominal | plost/__init__.py:72-75 | "string" is in both sets, and it is read as nominal because the nominal test comes first. |
| Encoding.GuessType | plost/__init__.py:61-79 | Strict priority: a shorthand wins over any column. A string that is no column becomes a literal value, and that happens exactly in this case. Otherwise the column's storage type gives the type. |
| Encoding.ShorthandIgnoresData | plost/__init__.py:61-64 | A shorthand resolves the same way against any two tables, even one with a column spelled like the shorthand. |
| Encoding.Clean | plost/__init__.py:13-38 | Per argument kind, the result's keys and values are stated. A pinned type skips inference. A field gets field and type, and the options override them. A literal string or number gets a value (a string's value overrides the options; a number's does not). A dict's own keys override the options. An absent argument gives exactly the options. |
| Encoding.CleanGuessed | plost/__init__.py:18-27 | Without a pinned type, an inferred field gets {field, type} under the options, and a non-column string gets the options plus its value. |
| Encoding.FieldXorValue | plost/__init__.py:13-32 | With no field/value option, a string or number resolves to exactly one of `field` and `value`. |
| Encoding.PinnedTypeSkipsInference | plost/__init__.py:14-27 | With a "type" option the table is never consulted. The string is kept verbatim as the field, and the pinned type is kept. |
| Encoding.CleanCustomIdempotent | plost/__init__.py:34-36 | Feeding a cleaned encoding back in as a custom dict, with no options or with the same options, changes nothing. |
| JsonData.Or | plost/__init__.py:1262 | Python `x or y` is truthy exactly when one operand is, and is one of the operands, the first when it is truthy. So `bin or True` is always truthy. |
| Reshape.Melts | plost/__init__.py:91-98 | A melt happens exactly when x is not a dict and y is a list, a number or None, so a one-name list melts. |
| Reshape.OneNameListMelts | plost/__init__.py:91-102 | A one-name list melts while the bare name does not, although both have the same list-like form. |
| Reshape.AsListLike | plost/__init__.py:123-130 | A non-list becomes a one-element list. The items are all strings exactly when y is a list or a string. The result is empty only for an empty list. |
| Reshape.ListLikeNames | plost/__init__.py:101-102 | Round trip: the value columns read off the list-like form of a list are exactly its names, and a list of string arguments is the list-like form of its names. |
| Reshape.MeltValueVarsOk | plost/__init__.py:100-112 | In a melt, every item of the list-like y is a string naming a column exactly when y is a list of columns. This is the value-column clause of `MeltInputsOk`. |
| Reshape.KeptColumns | plost/__init__.py:104 | A name is kept exactly when it is a column and some extra argument is that string. There are no more names than arguments. |
| Reshape.KeptInOrder | plost/__init__.py:104 | The kept columns are an in-order filter: keeping from `a + b` keeps from a, then from b, and one argument is kept exactly when it is a string naming a column. |
| Reshape.MeltTable | plost/__init__.py:111-112 | Over distinct id and value columns, the melted table is valid and has rows × series rows. Its columns are the id columns + [variable, value], and no column is repeated. `variable` holds strings, and `value` has the common storage type of the value columns. |
| Reshape.MeltRefusesRepeats | plost/__init__.py:100-112 | An admitted melt names no value column twice, does not list the x column among the values, and keeps no second copy of the x column. |
| Reshape.MeltDtypes | plost/__init__.py:111-112 | Id columns keep their storage type, `variable` is object, and `value` takes the common type of the value columns. |
| Reshape.MeltRows | plost/__init__.py:111-112 | The long rows number series × rows, and each has exactly the id keys plus `variable` and `value`. |
| Reshape.MeltRowsAt | plost/__init__.py:111-112 | Long row j·R + i is original row i melted for series j, in pandas' series-major order. |
| Reshape.PivotUndoesMelt | plost/__init__.py:111-112 | Inverse: pivoting the long rows back gives each original row restricted to the id and value columns. |
| Reshape.PivotValuesOfMelt | plost/__init__.py:111-112 | Reading the series blocks back gives each series' cell of row i. |
| Reshape.ValueEncoding | plost/__init__.py:116 | The `value` encoding has exactly field, type and title, with field "value", a null title, and the type guessed from the `value` column's storage type. |
| Reshape.CleanSeries | plost/__init__.py:92-96 | A list y resolves to no keys at all. |
| Reshape.MaybeMelt | plost/__init__.py:86-120 | No melt: the table, the cleaned y and a null series encoding are returned unchanged. Melt: it fails exactly when `variable` or `value` is taken, and `variable` is checked first. On success it gives the melted table's size and columns, the value encoding with the type of the value columns' common storage type, and the series encoding {field: variable, title: null, legend}. |
| Reshape.NumericMeltIsQuantitative | plost/__init__.py:100-116 | Wide data whose value columns are all numeric melts into a quantitative `value` encoding. |
| Reshape.MeltContents | plost/__init__.py:100-118 | In the result of `_maybe_melt`, row j·R + i names series j, carries row i's cell of that series, and copies row i's id columns. |
| Reshape.MaybeMeltRows | plost/__init__.py:100-112 | The melted rows of `_maybe_melt` are the melt of the original rows over the id columns, and these avoid the reserved names. |
| Compose.Selection | plost/__init__.py:133-148 | There is no selection exactly for None and "minimap". Otherwise there is one interval selection bound to scales under "foo". Zoom is off if and only if the mode is "pan", and translation is off if and only if it is "zoom". |
| Compose.LegendDict | plost/__init__.py:151-154 | A missing legend gives {disable: true}. Otherwise the legend becomes {orient: legend}. |
| Compose.LegendDictInjective | plost/__init__.py:151-154 | Two legend settings give the same legend dict exactly when they are equal, so the dict records whether a legend is shown and where. |
| Compose.AnnotEntries | plost/__init__.py:243-249 | A falsy argument gives nothing. A dict gives its items in order, with values as captions. A list, or a scalar wrapped as a list, gives coordinates with empty captions. |
| Compose.EncodingAnnotations | plost/__init__.py:242-258 | One layer per annotation entry, in order. Layer i is exactly a `rule` mark and an encoding that pins the channel's datum at the i-th coordinate, with the tooltip "caption (coordinate)". |
| Compose.AddAnnotations | plost/__init__.py:225-239 | With no annotations the spec is unchanged. Otherwise the spec is exactly {layer: [spec] + x rules + y rules}. |
| Compose.AnnotationOrder | plost/__init__.py:225-239 | Layer 0 is the spec. Layer 1 + i is the i-th x rule, and layer 1 + nx + i is the i-th y rule. |
| Compose.AnnotationTooltip | plost/__init__.py:251-258 | Each layer is a rule pinned at its coordinate, and its tooltip text ends in " (coordinate)". |
| Minimap.Hide | plost/__init__.py:176-177 | Blanking one channel sets its title and axis to null and leaves every other key and channel alone. |
| Minimap.Resize | plost/__init__.py:173-194 | Minimap size: 50 high above or below a 1-D chart. To the right it is 50 wide (1-D) and 250 high. When 2-D, both sizes are halved with floor division. |
| Minimap.HideSteps | plost/__init__.py:173-198 | y is blanked if and only if the location is top/bottom, or the minimap filters, or it is 2-D. x is blanked if and only if it filters, or is to the right, or is 2-D. |
| Minimap.HideAxes | plost/__init__.py:173-198 | The source's blanking steps, in order, keep the view's keys, its non-encoding values and its channels, and never touch a channel other than x and y. `SourceOrderHides` gives the blanked result. |
| Minimap.BlankOnce | plost/__init__.py:173-198 | Reference definition: each affected channel is blanked once, and every other channel and key is kept. |
| Minimap.HideTwice | plost/__init__.py:176-183 | Blanking a channel twice equals blanking it once. |
| Minimap.HideCommutes | plost/__init__.py:176-198 | Blanking x and blanking y commute. |
| Minimap.HideEachBlanks | plost/__init__.py:173-198 | Blanking a list of channels after some are blanked leaves each listed channel blanked once. |
| Minimap.SourceOrderHides | plost/__init__.py:173-198 | Blanking in the source's order, with its repetitions, equals the reference `BlankOnce`. |
| Minimap.Shrink | plost/__init__.py:166-202 | The minimap view carries the brush over the brushed channels and is sized as a minimap. It shows the chart's channels with blanked axes, and keeps the other plot keys. |
| Minimap.Brushed | plost/__init__.py:209-213 | A linked channel's scale gains a domain that follows the brush. Its other scale settings stay, its title becomes null, and nothing else changes. |
| Minimap.BrushedTwice | plost/__init__.py:209-213 | Linking a channel twice equals linking it once. |
| Minimap.LinkChannel | plost/__init__.py:210-213 | Only the named channel changes, and it becomes its `Brushed` form. |
| Minimap.BrushScales | plost/__init__.py:209-213 | The loop keeps the view's keys and channels, and keeps every scale a dict. |
| Minimap.BrushScalesLinks | plost/__init__.py:209-213 | After the loop each listed channel is linked once, and each unlisted channel is as it was. |
| Minimap.LinkPrimary | plost/__init__.py:204-213 | A filtering minimap adds exactly the brush filter transform. Otherwise every brushed channel is linked and everything else is kept. |
| Minimap.Inner | plost/__init__.py:161-163 | The plot part holds exactly the spec's mark, encoding, selection, width and height. |
| Minimap.Outer | plost/__init__.py:164 | The meta part holds exactly the other keys. |
| Minimap.Concat | plost/__init__.py:215-220 | hconcat [main, mini] to the right, vconcat [mini, main] on top, and vconcat [main, mini] otherwise. |
| Minimap.AddMinimap | plost/__init__.py:160-222 | The result holds the meta keys plus one concatenation key, and the meta values are unchanged. |
| Minimap.AddMinimapViews | plost/__init__.py:160-222 | The main view is the linked plot part. The minimap is derived from the plot part as it was before linking (the deep copy). |
| Minimap.AddMinimapOuter | plost/__init__.py:160-222 | The outer spec has no mark or encoding, and keeps the chart's data and title. |
| Minimap.MinimapView | plost/__init__.py:166-202 | The minimap has only plot keys and so no filter. It holds the brush, is sized as a minimap, and shows the chart's channels with blanked axes. |
| Minimap.MainViewFollowsBrush | plost/__init__.py:204-213 | The main view has a transform if and only if the minimap filters. Otherwise every brushed channel's scale domain follows the brush. |
| Minimap.MainViewKeepsPlot | plost/__init__.py:161-213 | The main view keeps the chart's mark, selection and sizes. |
| Minimap.InnerChannels | plost/__init__.py:163 | The plot part has exactly the spec's channels, with the same encodings. |
| Charts.Meta | plost/__init__.py:340-345 | The meta keys are exactly data, width, height and title, with the frame's values. |
| Charts.Annotated | plost/__init__.py:358-359 | Without annotations: plot + meta. With annotations: a layer stack over the plot, under the meta keys. |
| Charts.Finish | plost/__init__.py:361-362 | The spec is unchanged unless the mode is minimap. In minimap mode there is a concatenation with no mark or encoding. Data and title survive either way. |
| Charts.Assemble | plost/__init__.py:358-362 | Annotations, then meta, then the minimap. Data and title are always outside. Sizes are outside unless a minimap is added. |
| Charts.CleanKeepsScaleDict | plost/__init__.py:34-36 | Cleaning keeps a custom dict's scale a dict, so the minimap can write its domain. |
| Charts.SeriesChannels | plost/__init__.py:334-354 | Line and area channels fail exactly when a melt meets a taken reserved column. A colour argument wins over the series encoding. Melted data puts y on `value` and, with no colour argument, colours by the series. Without a melt the table is unchanged. |
| Charts.MeltedChannels | plost/__init__.py:337-354 | The four channels over the melt outcome: x cleaned, y the value encoding, colour as above, opacity cleaned. |
| Charts.SeriesSpec | plost/__init__.py:347-363 | Without annotations: the mark, the channels and the pan/zoom selection. With annotations: a layer stack. In minimap mode: a vertical concatenation whose minimap below the plot brushes x, and y as well when 2-D. Meta keys are outside. |
| Charts.LineChart | plost/__init__.py:261-364 | It fails exactly when a melt meets a taken reserved column. The shape is as in `SeriesSpec` with a line mark. The data is the input, or rows × series long rows. The container-width flag is passed through. |
| Charts.SeriesFieldsAreColumns | plost/__init__.py:335-354 | In a melted chart without a colour argument, x, y and colour read fields that are columns of the long table: the id column, `value` and `variable`. |
| Charts.IdFieldOfShorthand | plost/__init__.py:100-101 | A shorthand x whose stripped name is a column resolves to that name as its field, the same name the melt keeps as its id column. |
| Charts.StackValue | plost/__init__.py:451-455 | The boolean True never reaches the specification, because it becomes "zero". Every other argument is kept, and truthiness is kept. |
| Charts.AreaStack | plost/__init__.py:451-455 | Every stack argument but None is written into y, with True meaning "zero". |
| Charts.BarStack | plost/__init__.py:572-577 | Only a truthy stack argument is written into the bar lengths, with True meaning "zero". |
| Charts.StackPolicies | plost/__init__.py:451-455 | The area and bar policies (the bar's is at lines 572-577) agree if and only if the argument is None or truthy, and both map True to "zero". |
| Charts.StackY | plost/__init__.py:451-455 | Only y is stacked: every other channel is unchanged. Keys and minimap-linkability are kept. |
| Charts.AreaChart | plost/__init__.py:367-481 | As `LineChart` with an area mark. Without annotations or minimap, a non-None stack argument sits in y's encoding. |
| Charts.BarLayout | plost/__init__.py:579-600 | Six channels. Vertical bars: category on x, lengths on y, facets in columns. Horizontal bars swap both pairs, and the spare facet is null. |
| Charts.SeriesAlias | plost/__init__.py:552-553 | "value" is replaced by the series column `variable`, and every other argument is kept. The result names `variable` exactly when the argument is "value" or "variable". |
| Charts.BarGrouping | plost/__init__.py:559-570 | `group=True` puts the series on the category axis and facets by the category. A truthy group column (with "value" meaning the series) facets by that column. Facets are spaced 10. |
| Charts.BarChannels | plost/__init__.py:547-600 | It fails exactly on a taken reserved column, or on `group=True` without a melt. The category is resolved against the table before the melt. On melted data the value axis reads `value`. A truthy stack is written. |
| Charts.MeltedBars | plost/__init__.py:547-600 | Over a melt outcome, the category is the bar argument cleaned against the original table. Under `group=True` it is the colour, faceted by that category. The value axis reads the value encoding's field, and a truthy stack is written. |
| Charts.Transposed | plost/__init__.py:579-581 | x is swapped with y and column with row. Nothing else changes. |
| Charts.LayoutTransposed | plost/__init__.py:579-581 | The horizontal layout is the vertical one transposed. |
| Charts.BarOrientation | plost/__init__.py:579-582 | Horizontal bars succeed exactly when vertical ones do, over the same data, with the channels transposed. |
| Charts.BarValueColorIsSeries | plost/__init__.py:551-554 | A colour argument "value" on a melted table colours by the nominal `variable` field. |
| Charts.BarChart | plost/__init__.py:484-615 | Failures as in `BarChannels`. Horizontal bars always use the container width. The bars never carry a pan/zoom selection. In minimap mode the minimap sits to the right of horizontal bars and on top of vertical ones. It brushes the category axis, and the bars view is filtered by the brush, with no selection of its own. |
| Charts.BarSpec | plost/__init__.py:584-613 | Exactly mark, encoding and meta keys. In minimap mode: a concatenation whose bars view has the brush filter and no selection, and whose minimap brushes the category axis. |
| Charts.MeltKeepsScaleDict | plost/__init__.py:86-120 | The y encoding of `_maybe_melt` keeps a custom dict's scale a dict. A melted y has no scale. |
| Charts.ScatterChannelsAsWritten | plost/__init__.py:699-717 | As written, the colour channel is the melt's series encoding, or null without a melt, whatever the colour argument. |
| Charts.ScatterColorIgnored | plost/__init__.py:699-717 | As written, any two colour arguments give identical channels. |
| Charts.ScatterChannels | plost/__init__.py:699-717 | Corrected: a truthy colour argument sets the colour channel. Otherwise the result equals the as-written channels. The channels are linkable for a 2-D minimap. |
| Charts.ScatterColorDropped | plost/__init__.py:699-717 | Colouring b-against-a by column k: as written the colour is null. Corrected, it is the nominal field k. |
| Charts.ScatterChart | plost/__init__.py:618-727 | It fails exactly on a taken reserved column. Shape as in `SeriesSpec` with a circle mark. The minimap brushes both x and y. The encoding is the corrected channels. |
| Charts.PlainChannels | plost/__init__.py:956-964 | Five channels resolved against the table as given. Size, colour and opacity carry the legend. |
| Charts.TickMark | plost/__init__.py:957 | The tick mark is the common mark with tooltips, plus the thickness. |
| Charts.EventChart | plost/__init__.py:863-974 | Shape as in `SeriesSpec` with a tick mark of the given thickness, over the unmelted data. |
| Charts.EventLikeScatter | plost/__init__.py:956-964 | With a single y and a colour argument, the event channels equal the corrected scatter channels over the same table. |
| Charts.PieSpec | plost/__init__.py:730-743 | Exactly mark (arc), view (no stroke) and encoding {theta, color}. |
| Charts.PieChannels | plost/__init__.py:739-742 | theta is cleaned as given. Colour carries a null title and the legend dict unless a custom dict overrides them. |
| Charts.CleanKeepsOption | plost/__init__.py:21-32 | Any option other than `value` survives cleaning a string, number or absent argument. |
| Charts.PieColor | plost/__init__.py:741 | Unless a custom dict overrides them, the pie colour carries a null title and the legend dict. |
| Charts.PieChart | plost/__init__.py:746-798 | An arc mark with meta keys over it, and the container-width flag passed through. |
| Charts.InnerRadius | plost/__init__.py:851-854 | A truthy height h gives a radius r with 4r ≤ h < 4r + 4, that is floor(h/4). Otherwise the radius is 50. |
| Charts.DonutChart | plost/__init__.py:801-860 | The mark carries the inner radius of the height, and meta keys are outside. |
| Charts.DonutIsPieWithHole | plost/__init__.py:844-858 | A donut is the pie with the same arguments, except that its mark also holds the inner radius. |
| Charts.HistSpec | plost/__init__.py:1259-1269 | The histogram shape: mark and selection, or layers. No minimap, and "minimap" selects nothing. |
| Charts.TimeAxis | plost/__init__.py:1060-1061 | A time axis reads the date field as ordinal, bucketed by its time unit, with a null title and five keys. |
| Charts.TimeAxesDiffer | plost/__init__.py:1060-1061 | Two axes on the same date are equal exactly when their time units are, and differ in nothing else. |
| Charts.TimeHistChannels | plost/__init__.py:1057-1063 | x and y read the same date field as ordinal bands with their own time units. Colour aggregates unless a custom dict overrides it. |
| Charts.TimeHist | plost/__init__.py:977-1070 | A rect mark. Without annotations, x and y read the date with their time units. |
| Charts.TimeUnitsSwap | plost/__init__.py:1057-1068 | Exchanging the x and y time units exchanges the x and y channels. Without annotations, the chart changes in its encoding alone. |
| Charts.XyHistChannels | plost/__init__.py:1166-1172 | x and y carry their bin arguments, and colour its aggregate, unless custom dicts override them. |
| Charts.XyHist | plost/__init__.py:1073-1179 | A rect mark. Without annotations, the bin arguments sit on x and y. |
| Charts.XyHistTransposes | plost/__init__.py:1163-1172 | Exchanging x with y, and the x bin with the y bin, exchanges the x and y channels. Without annotations, nothing else in the chart changes. |
| Charts.XyHistBinsLikeHist | plost/__init__.py:1166 | With a truthy bin, the x channel equals `hist`'s x channel for the same argument (line 1262). With `bin or True`, it equals it for every bin. |
| Charts.HistChannels | plost/__init__.py:1259-1264 | x bins with a truthy bin argument, or with the defaults. A string, number or absent y carries the aggregate, and an absent y is exactly {aggregate}. |
| Charts.Hist | plost/__init__.py:1182-1271 | A bar mark over binned x. Without annotations, a string, number or absent y carries the aggregate in the view's encoding. |
| Charts.HistBinDefault | plost/__init__.py:1262 | Every falsy bin argument gives the same chart as `bin=True`. |
| Charts.CleanSameField | plost/__init__.py:1300-1324 | Options naming no field or type do not change the resolved field or type. |
| Charts.BinOpts | plost/__init__.py:1313 | The binned channel of a marginal histogram bins with `bin or True` and names no field or type. |
| Charts.ScatterView | plost/__init__.py:1294-1306 | The scatter view has the chart's sizes, and its x and y are cleaned as given. |
| Charts.TopHist | plost/__init__.py:1308-1316 | The top histogram is as wide as the chart and 50 high, with binned x and aggregated y. |
| Charts.SideHist | plost/__init__.py:1318-1326 | The side histogram is 50 wide and as high as the chart, with aggregated x and binned y. |
| Charts.Grid | plost/__init__.py:1328-1332 | The top view sits above a row of main and side, with data and title outside. |
| Charts.ScatterHist | plost/__init__.py:1274-1334 | The three panels are exactly the top histogram, the scatter view and the side histogram, with no mark or encoding outside. |
| Charts.ScatterHistAligned | plost/__init__.py:1294-1332 | The panels line up: widths and heights match, and all three read x and y from the same fields with the same types. The histograms bin with the defaults unless given a truthy bin. |

## Left out

- Rendering: `st.vega_lite_chart` is not modelled. Each builder returns the specification and the container-width flag it would pass.
- pandas: `DataFrame.melt` is modelled on maps of rows. The storage type of the `value` column approximates pandas' type promotion: a common type, float64 for a numeric mix, and object otherwise. Index handling and the other pandas dtype rules are not modelled.
- Floats and booleans as channel arguments: a literal number is an integer. The event chart's default opacity of 0.5 has no counterpart.
- Default argument values: every builder parameter is explicit and no default is modelled. These include bar's `pan_zoom=None` and `use_container_width=False`, area's and bar's `stack=True`, legend "right" for scatter, pie and donut against "bottom" elsewhere, `aggregate="count"`, `x_bin=y_bin=True` for `xy_hist`, and `thickness=2`. A caller of the model passes these values explicitly.
- Melts that name a column twice: a repeated id column, a repeated value column, or a column that is both. pandas raises an error for a repeated id column and drops repeated value columns. `MeltInputsOk` requires the id columns followed by the value columns to be distinct, so these inputs are preconditions and the model makes no claim about them.
- MeltTable: its row count and columns are promised only over distinct id and value columns. pandas' de-duplication of repeated value columns and its error on repeated id columns are not modelled.
- MaybeMelt: a melt's success, row count and columns are promised only when `MeltInputsOk` holds, and that includes distinct id and value columns. Examples are `line_chart(x="a", y=["b", "b"])`, `line_chart(x="a", y=["a", "b"])` and `line_chart(x="a", y=["b"], opacity="a")`, which are outside the model.
- The tooltip text of an annotation formats the coordinate with Python's `str`. That is a parameter (`Notes.show`) and is not modelled.
- Crash preconditions: the cases where the source raises a pandas or dictionary error are preconditions, not results. These are a missing id or value column, a dict passed as a kept column, a minimap over annotated charts or over channels that are not dicts, and a 2-D minimap without integer width and height.
- Aliasing: the source shares dicts between views. Under `group=True` with a minimap, the colour and x encodings are one dict. The minimap also writes into a caller's custom `scale` dict. The model has value semantics, so these in-place side effects are not modelled.
- Charts.BarChart: the pan/zoom modes "both", "pan" and "zoom" are accepted and ignored, as in the source. Only "minimap" changes the spec.
- Charts.ScatterHist: the `pan_zoom` argument is never read by the source, so it is not a parameter.
- Charts.TimeHist: the legend argument is passed through raw, as the source passes it, not as a legend dict. The same holds for Charts.XyHist.
- Encoding.DtypeKind: the source tests for the dtype name "categorical", which pandas never reports (it says "category"). The model keeps the test as written.
- `streamlit_app.py` and `setup.py` are the demo app and the packaging script, and are not part of this model.

## Findings

| source | as written | input that shows it | evidently intended | confidence | as-written member | corrected member |
|---|---|---|---|---|---|---|
| plost/__init__.py:622-717 | `scatter_chart` takes a `color` argument and documents it, but never reads it. The colour channel is always the melt's series encoding, and is null when y is a single column. | a table with int columns a and b and an object column k, and `scatter_chart(x="a", y="b", color="k")` | the colour argument wins over the series encoding, as in `line_chart` and `area_chart` (lines 337-338, 448-449) | not executed | Charts.ScatterChannelsAsWritten, Charts.ScatterColorIgnored, Charts.ScatterColorDropped | Charts.ScatterChannels, Charts.ScatterChart |
