# Gilfoyle report payload builder, in Dafny

This project models the payload builder of gilfoyle's `gilfoyle/report.py`.
`Report` is a mutable builder. It holds the output file name, the Jinja
template name, the base URL for resolving resources and a report title (empty
at first). `get_payload` hands out a fresh payload dictionary
`{'report': {}, 'pages': []}`. `add_page` builds one page record from its
arguments and appends it, in place, to the payload's `pages` list. It then
returns that same payload object. `create_report` first writes the stored
title into `payload['report']['title']` (`_extend_payload`). It then renders
the payload and exports it: as HTML when `output` is exactly `'html'`, and as
a PDF for any other value. Both exports go to the file name given to the
constructor.

Layout:

- `wrappers.dfy`, module `Wrappers`: `Option`, which stands for Python's `None`
  or a present value.
- `report.dfy`, module `Gilfoyle`: the `Report` and `Payload` classes and the
  page values. `Payload` has a `report` map and a `pages` sequence, and the
  methods reassign them under `modifies` frames. The module also holds
  `FormatDataframe` and `MakePage` (the page record `add_page` builds), and
  `Export`, the export `create_report` hands to the renderer and exporter.
- `page_order.dfy`, module `PageOrder`: `Build` gives the pages a fresh payload
  holds after a run of `add_page` calls. The lemmas here say where each page
  lands. `RunCalls` ties `Build` to the real `AddPage` for any run of calls, and a
  short client method runs it on three pages.

A pandas DataFrame passed as `page_dataframe` is represented by the markup
that pandas' `to_html` produces for it, with the fixed table classes, the
13-row and 10-column limits and no index. Any other argument is
`NoValue` (Python `None`) or `NotADataFrame` (any other object).

## Model

| member | source | states |
|---|---|---|
| `Gilfoyle.Report.constructor` | gilfoyle/report.py:9-18 | stores output, template (default `assets/template.html`) and base URL (default `.`); title and the unused `payload` attribute start as the empty string |
| `Gilfoyle.Report.SetTitle` | gilfoyle/report.py:24-25 | the title becomes the argument; output, template and base URL are unchanged |
| `Gilfoyle.Payload.constructor` | gilfoyle/report.py:39 | the report map and the pages list start empty |
| `Gilfoyle.Report.GetPayload` | gilfoyle/report.py:31-39 | returns a newly allocated payload whose report map and pages list are both empty |
| `Gilfoyle.Report.AddPage` | gilfoyle/report.py:41-84 | the caller's payload is mutated and returned as the same object; pages grow by exactly one; every earlier page stays at its index; the new last page is the record built from the arguments, with each omitted optional field `None`; the report map is untouched |
| `Gilfoyle.MakePage` | gilfoyle/report.py:72-82 | page type and title are copied without any validation; the page carries markup exactly when the argument is a DataFrame |
| `Gilfoyle.FormatDataframe` | gilfoyle/report.py:86-102 | yields markup if and only if the argument is a DataFrame, and that markup is the DataFrame's rendering; any other argument gives `None` and no failure |
| `Gilfoyle.Report.ExtendPayload` | gilfoyle/report.py:133-144 | the same payload is returned; its report map maps `title` to the builder's current title, and every other key keeps its value; pages are unchanged |
| `Gilfoyle.Report.CreateReport` | gilfoyle/report.py:170-190 | the payload is extended with the title before rendering; the export is HTML exactly when `output == "html"` and PDF otherwise; it targets the builder's output file; a PDF uses the builder's base URL; the renderer sees the builder's template and the extended payload |
| `PageOrder.Build` | gilfoyle/report.py:72-83 | the pages of a run of calls: exactly one page per call |
| `PageOrder.RunCalls` | gilfoyle/report.py:39-84 | a fresh payload followed by one `add_page` call per element, of any length, ends with pages equal to `Build` of the calls and an empty report map |
| `PageOrder.BuildAt` | gilfoyle/report.py:72-83 | the page at index i is the record built from the i-th call |
| `PageOrder.BuildAppend` | gilfoyle/report.py:83 | later calls append after the pages of earlier calls and leave those pages and their order alone |
| `PageOrder.ThreePagesInOrder` | gilfoyle/report.py:39-84 | pages titled A, B, C added in that order, through `RunCalls`, sit at indices 0, 1, 2 with their own page types; a `report` page may come before a `cover` page; omitted layout and DataFrame are `None` |

## Left out

- `format_dataframe` internals: pandas' `to_html`, with its classes and row and column limits, is a foreign library call. Its output is taken as given with the DataFrame.
- `_get_template` and `_render_template`: Jinja loads the template from the package directory and renders it. The model records only the template name and the payload handed to the renderer (`Rendering`).
- `to_html`: writing the markup to a file is I/O. `WriteHtml` names the file and the rendering instead.
- The PDF export through WeasyPrint is a foreign call. `WritePdf` names the file, the base URL and the rendering instead. In Python `create_report` returns whatever `write_pdf` returns on the PDF path and `None` on the HTML path. The model returns the export description on both paths.
- The `verbose` print of the payload is diagnostic output only. The parameter is kept and has no effect.
- `add_page` arguments are untyped in Python. The model gives them types: strings for type, title, layout, subheading, commentary, notification and visualisation; a string map for `page_message`; a sequence of string maps for `page_metrics`.
- Metric tiles (`add_metric_tile`, percentage change, numeric coercion, prefix and suffix formatting) are not defined in `gilfoyle/report.py`, so they are not modelled. The same goes for a `page_background` field and a `MissingRequiredField` error: neither exists in that file, and `add_page` validates nothing.
- `set_accent_background_color` and `set_accent_font_color` are called by `example.py` but not defined in `gilfoyle/report.py`. They are not modelled.
- Aliasing across payloads: two payloads that share one Python `pages` list cannot arise from `get_payload`, which always builds a fresh dictionary. The model gives each payload its own fields. Likewise `add_page` stores the caller's `page_message` dict and `page_metrics` list by reference, so a later change to them in Python shows through the stored page; the model stores them as values, and a change after the call does not reach the page.
- `example.py` (network downloads, plotting, saving images) and `setup.py` (packaging) are not part of this model.
