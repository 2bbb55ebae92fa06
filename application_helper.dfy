// ApplicationHelper: the browser title of every page and the colour classes
// of a flash message.

module ApplicationHelper {
  import opened Common

  const BaseTitle: string := "B2B Order System"
  const TitleSeparator: string := " | "

  /** `page_title(title)`: a present title followed by the separator and the
    * application name; the application name alone otherwise. */
  function PageTitle(title: Option<string>): (r: string)
    ensures BlankOpt(title) ==> r == BaseTitle
    ensures !BlankOpt(title) ==>
              |r| == |title.value| + |TitleSeparator + BaseTitle|
              && r[..|title.value|] == title.value && r[|title.value|..] == TitleSeparator + BaseTitle
  {
    if BlankOpt(title) then BaseTitle
    else
      var r := title.value + TitleSeparator + BaseTitle;
      assert r[..|title.value|] == title.value;
      r
  }

  /** Reads the page's own title back out of a browser title: what precedes
    * the trailing separator and application name, if it is there. */
  function TitlePart(browserTitle: string): (r: Option<string>)
    ensures r.Some? ==> browserTitle == r.value + TitleSeparator + BaseTitle
  {
    var n := |TitleSeparator + BaseTitle|;
    if |browserTitle| >= n && browserTitle[|browserTitle| - n..] == TitleSeparator + BaseTitle then
      var t := browserTitle[..|browserTitle| - n];
      assert browserTitle == t + browserTitle[|browserTitle| - n..];
      Some(t)
    else None
  }

  /** The browser title gives the page's title back exactly when one was
    * present, so distinct present titles never share a browser title. */
  lemma {:induction false} PageTitleRoundTrip(title: Option<string>)
    ensures TitlePart(PageTitle(title)) == (if BlankOpt(title) then None else title)
  {
    var s := PageTitle(title);
    var tail := TitleSeparator + BaseTitle;
    if !BlankOpt(title) {
      assert s == title.value + tail;
      assert s[|s| - |tail|..] == tail;
      assert s[..|s| - |tail|] == title.value;
    } else {
      assert |s| < |tail|;
    }
  }

  const GreenClasses: string := "bg-green-50 text-green-800"
  const RedClasses: string := "bg-red-50 text-red-800"
  const YellowClasses: string := "bg-yellow-50 text-yellow-800"
  const BlueClasses: string := "bg-blue-50 text-blue-800"

  /** `flash_class(type)`: notices and successes are green, alerts and
    * errors red, warnings yellow, and any other kind blue. */
  function FlashClass(kind: string): (r: string)
    ensures r == GreenClasses <==> kind in {"notice", "success"}
    ensures r == RedClasses <==> kind in {"alert", "error"}
    ensures r == YellowClasses <==> kind == "warning"
    ensures r == BlueClasses <==> kind !in {"notice", "success", "alert", "error", "warning"}
  {
    match kind
    case "notice" => GreenClasses
    case "success" => GreenClasses
    case "alert" => RedClasses
    case "error" => RedClasses
    case "warning" => YellowClasses
    case _ => BlueClasses
  }
}
