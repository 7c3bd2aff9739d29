# Shinkenryu radar chart, modelled in Dafny

The Shinkenryu kata-composition app (app3.py) lets a user name up to ten
variables, give each an intensity from 1 to 5, pick a light or dark style,
and see the result as a Plotly radar ("spider") chart. The one piece of
logic in it is `plot_radar_chart_plotly`, which turns the labels, the
values and the style token into a Plotly figure. This project models that
function as the pure Dafny function `RadarChart.PlotRadarChart`. It returns
a `Figure` value holding the arguments the source hands to Plotly: the
`Scatterpolar` trace (closed `r` and `theta`, fill mode, fill colour, line
colour and width, trace name) and the layout (radial axis visibility, range
and colour, polar and page backgrounds, font colour, title). The empty-label
failure is a `Result` error instead of a Python `IndexError`.

Module `Polyline` (polyline.dfy) holds the sequence notions the chart is
stated with:
- Python's clamping prefix slice `s[:k]`;
- "closing" a point sequence by repeating its first element;
- the segments a renderer draws between consecutive points;
- the pairing of radial values with angular labels.

Module `RadarChart` (radar_chart.dfy) holds the palette lookup, the two
closures, the figure builder and the lemmas about it.

The source function is deterministic and builds new lists
(`values + values[:1]`, `labels + [labels[0]]`) rather than changing its
arguments. In Dafny this holds by construction: `PlotRadarChart` is a
function over immutable sequences.

Only an empty `labels` fails, with an IndexError from `labels[0]`
(app3.py:36). An empty `values` gives an empty `r`, because `values[:1]`
does not fail (app3.py:35). `labels` and `values` are separate lists whose
lengths are never compared. `style` is only compared with `'dark'`
(app3.py:19); every other value selects the light palette.

## Model

| member | source | states |
|---|---|---|
| `Polyline.PrefixSlice` | app3.py:35 | `values[:1]` never fails: it has length min(k, len) and is a prefix of the list |
| `Polyline.ClosingIsClosed` | app3.py:35-36 | a closed sequence ends where it starts and has one element more than the original |
| `Polyline.Segments` | app3.py:34-36 | the outline drawn through the points joins point i to point i+1, one segment fewer than the points |
| `Polyline.ClosingDrawsPolygon` | app3.py:35-36 | appending the first point makes the drawn segments exactly the polygon's edges, the last one back to the first point |
| `Polyline.Zip` | app3.py:35-36 | the trace's i-th point is (r[i], theta[i]) |
| `Polyline.ZipOfClosings` | app3.py:35-36 | closing `r` and `theta` separately closes the sequence of (value, name) points, so the repeated point is the first variable |
| `RadarChart.PaletteFor` | app3.py:19-28 | the lookup is total: the dark palette exactly for "dark", the light palette for every other string |
| `RadarChart.ClosedRadial` | app3.py:35 | `r` is `values` unchanged with `values[0]` appended, and is empty when `values` is empty |
| `RadarChart.ClosedAngular` | app3.py:36 | `theta` is `labels` with `labels[0]` appended; IndexError exactly when `labels` is empty |
| `RadarChart.PlotRadarChart` | app3.py:6-62 | fails exactly on empty labels; otherwise closed `theta` and `r`, lengths unchecked, colours from the style's palette, polar background equal to page background, axis colour equal to font colour, fill 'toself', line width 2, range [0, 5], fixed title text, size 16 and x = 0.5 |
| `RadarChart.DefaultStyleIsLight` | app3.py:6 | without a style argument the chart uses the light palette |
| `RadarChart.PaletteDeterminesStyle` | app3.py:19-28 | the background and the fill colour of the figure are the dark ones if and only if the style is "dark" |
| `RadarChart.ValuesPassThrough` | app3.py:35 | every value reaches `r` at its own index unchanged, whatever its size; any non-empty label list is accepted, whatever its length |
| `RadarChart.SidebarChartIsClosedPolygon` | app3.py:87-98 | with the sidebar's inputs (1-10 labels, as many values in 1..5) the chart never fails, every point lies in the radial range, and the drawn outline is the closed polygon over the (value, name) pairs |
| `RadarChart.Examples` | app3.py:6-62 | worked cases: three dark-style variables (dark background, cyan fill, range [0, 5]), one light-style variable, an out-of-range value passed through unclipped, empty labels failing, empty values accepted |

## Left out

- The Streamlit user interface (app3.py:4, app3.py:64-105, app3.py:118-119): page setup, titles, sidebar widgets and `st.plotly_chart`. This is I/O with a human. Its bounds (1-10 variables, slider values 1..5) appear only as the precondition `SidebarInputs` of `SidebarChartIsClosedPolygon`.
- The loop at app3.py:90-98 that fills `labels` and `values` from the widgets. It is UI input collection.
- File export (app3.py:110-116, `write_html` and `write_image`). This is file-system I/O through Plotly and kaleido.
- Plotly itself (`go.Figure`, `add_trace`, `update_layout`, the renderer). These are foreign library calls. Only the arguments passed to them are modelled. `Segments` states how any renderer joins consecutive points; it is not a model of Plotly's drawing code.
- How Plotly pairs `r` and `theta` when their lengths differ. That is Plotly's behaviour, not the source's. `Zip` and the lemmas that use it assume equal lengths, as the sidebar always supplies.
- Non-integer values. Python accepts any numbers in `values`; the model uses `int`, which is what the sliders produce.
- Colours are opaque strings. The 0.3 alpha in the fill colours is not interpreted.
- Element types: the source never checks element types; the model fixes labels and style as strings and values as int.
