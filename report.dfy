/**
 The report payload builder of the `gilfoyle.report` module.

 A `Report` keeps the output target, the template name, the base URL used
 to resolve resources and the report title. A `Payload` is the dictionary
 handed to the template: a `report` map that receives the title just before
 rendering and an ordered list of `pages` that `AddPage` extends in place.
 */
module Gilfoyle {
  import opened Wrappers

  /** What a caller may pass as `page_dataframe`. A pandas DataFrame is
      represented by the markup that pandas renders for it (with the table
      classes, the 13-row and 10-column limits and no index); any other
      value is just some object that is not a DataFrame. */
  datatype DataframeArg =
    | NoValue
    | DataFrame(markup: string)
    | NotADataFrame

  /** One page record, with the field names the template reads. */
  datatype Page = Page(
    pageType: string,
    pageLayout: Option<string>,
    pageTitle: string,
    pageSubheading: Option<string>,
    pageCommentary: Option<string>,
    pageMessage: Option<map<string, string>>,
    pageNotification: Option<string>,
    pageMetrics: Option<seq<map<string, string>>>,
    pageDataframe: Option<string>,
    pageVisualisation: Option<string>)

  /** The arguments of one `add_page` call, with the same defaults. */
  datatype PageArgs = PageArgs(
    pageType: string,
    pageTitle: string,
    pageLayout: Option<string> := None,
    pageSubheading: Option<string> := None,
    pageCommentary: Option<string> := None,
    pageMessage: Option<map<string, string>> := None,
    pageNotification: Option<string> := None,
    pageMetrics: Option<seq<map<string, string>>> := None,
    pageDataframe: DataframeArg := NoValue,
    pageVisualisation: Option<string> := None)

  /** The two output paths of `create_report`. */
  datatype Mode = Html | Pdf

  /** What the template renderer is given: the template name and the payload. */
  datatype Rendering = Rendering(template: string, report: map<string, string>, pages: seq<Page>)

  /** The export `create_report` performs with the rendered markup: written
      verbatim to a file, or converted to a PDF with resources resolved
      against a base URL. */
  datatype Export =
    | WriteHtml(filename: string, rendering: Rendering)
    | WritePdf(filename: string, baseUrl: string, rendering: Rendering)
  {
    function OutputMode(): Mode {
      if WriteHtml? then Html else Pdf
    }
  }

  /** The key under which the report title is stored in `payload.report`. */
  const TitleKey := "title"

  /** Markup for a DataFrame argument, and nothing (without failing) for any other value. */
  function FormatDataframe(dataframe: DataframeArg): (r: Option<string>)
    ensures r.Some? <==> dataframe.DataFrame?
    ensures dataframe.DataFrame? ==> r.value == dataframe.markup
  {
    match dataframe
    case DataFrame(markup) => Some(markup)
    case _ => None
  }

  /** The page record `add_page` builds from its arguments: every argument is
      copied as given, with no check of the page type or layout, and only the
      DataFrame goes through `FormatDataframe`. */
  function MakePage(args: PageArgs): (page: Page)
    ensures page.pageType == args.pageType && page.pageTitle == args.pageTitle
    ensures page.pageDataframe.Some? <==> args.pageDataframe.DataFrame?
  {
    Page(args.pageType, args.pageLayout, args.pageTitle, args.pageSubheading,
         args.pageCommentary, args.pageMessage, args.pageNotification,
         args.pageMetrics, FormatDataframe(args.pageDataframe), args.pageVisualisation)
  }

  /** The payload dictionary: `{'report': {...}, 'pages': [...]}`. */
  class Payload {
    var report: map<string, string>
    var pages: seq<Page>

    constructor ()
      ensures report == map[] && pages == []
    {
      report := map[];
      pages := [];
    }
  }

  class Report {
    var template: string
    var output: string
    var baseUrl: string
    var payload: string
    var title: string

    constructor (output: string, template: string := "assets/template.html", baseUrl: string := ".")
      ensures this.output == output && this.template == template && this.baseUrl == baseUrl
      ensures this.payload == "" && this.title == ""
    {
      this.template := template;
      this.output := output;
      this.baseUrl := baseUrl;
      this.payload := "";
      this.title := "";
    }

    /** Overwrites the title; the other settings are untouched. */
    method SetTitle(title: string)
      modifies this`title
      ensures this.title == title
      ensures unchanged(this`output) && unchanged(this`template) && unchanged(this`baseUrl)
    {
      this.title := title;
    }

    /** A new payload with an empty report map and no pages. */
    static method GetPayload() returns (payload: Payload)
      ensures fresh(payload)
      ensures payload.report == map[] && payload.pages == []
    {
      payload := new Payload();
    }

    /** Appends one page to the caller's payload and returns that same payload. */
    method AddPage(payload: Payload, pageType: string, pageTitle: string,
                   pageLayout: Option<string> := None,
                   pageSubheading: Option<string> := None,
                   pageCommentary: Option<string> := None,
                   pageMessage: Option<map<string, string>> := None,
                   pageNotification: Option<string> := None,
                   pageMetrics: Option<seq<map<string, string>>> := None,
                   pageDataframe: DataframeArg := NoValue,
                   pageVisualisation: Option<string> := None)
      returns (r: Payload)
      modifies payload`pages
      ensures r == payload
      ensures |payload.pages| == |old(payload.pages)| + 1
      ensures payload.pages[..|old(payload.pages)|] == old(payload.pages)
      ensures payload.pages[|old(payload.pages)|] ==
        MakePage(PageArgs(pageType, pageTitle, pageLayout, pageSubheading, pageCommentary,
                          pageMessage, pageNotification, pageMetrics, pageDataframe,
                          pageVisualisation))
      ensures payload.report == old(payload.report)
    {
      var page := MakePage(PageArgs(pageType, pageTitle, pageLayout, pageSubheading, pageCommentary,
                                    pageMessage, pageNotification, pageMetrics, pageDataframe,
                                    pageVisualisation));
      payload.pages := payload.pages + [page];
      r := payload;
    }

    /** Stores the current title in the payload's report map, leaving the pages alone. */
    method ExtendPayload(payload: Payload) returns (r: Payload)
      modifies payload`report
      ensures r == payload
      ensures payload.report == old(payload.report)[TitleKey := title]
      ensures payload.pages == old(payload.pages)
    {
      payload.report := payload.report[TitleKey := title];
      r := payload;
    }

    /** Extends the payload with the title, then renders it and exports it to
        the configured output file: as HTML exactly when `output` is "html",
        and as a PDF for every other value. */
    method CreateReport(payload: Payload, output: string := "pdf", verbose: bool := false)
      returns (job: Export)
      modifies payload`report
      ensures payload.report == old(payload.report)[TitleKey := title]
      ensures payload.pages == old(payload.pages)
      ensures job.OutputMode() == Html <==> output == "html"
      ensures job.filename == this.output
      ensures job.WritePdf? ==> job.baseUrl == baseUrl
      ensures job.rendering == Rendering(template, payload.report, payload.pages)
    {
      var extended := ExtendPayload(payload);
      var rendering := Rendering(template, extended.report, extended.pages);
      if output == "html" {
        job := WriteHtml(this.output, rendering);
      } else {
        job := WritePdf(this.output, baseUrl, rendering);
      }
    }
  }
}
