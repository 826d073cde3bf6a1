/** The parts of Divar's listing-detail document the bot reads
    (`fetchFullAdDetails` returns it; bot/utils/index.js and bot/index.js read
    it). A missing string field is the empty string, which JavaScript treats
    as falsy just like a missing one; missing arrays are empty. */
module Payload {
  import opened Text
  import L = Lexicon

  datatype InfoItem = InfoItem(title: string, value: string)

  /** `exact_data.point`, its coordinates as they print. */
  datatype Point = Point(latitude: string, longitude: string)

  datatype Widget =
    | ScoreRow(title: string, score: string)             // SCORE_ROW: data.title, data.descriptive_score
    | GroupInfoRow(items: Option<seq<InfoItem>>)         // GROUP_INFO_ROW: data.items
    | UnexpandableRow(title: string, value: string)      // UNEXPANDABLE_ROW: data.title, data.value
    | ExpandableSection(text: Option<string>)            // EXPANDABLE_SECTION: data.widget_list[0].data.text
    | MapRow(point: Option<Point>)                       // MAP_ROW: data.location.exact_data.point
    | OtherWidget

  datatype Section = Section(name: string, widgets: seq<Widget>)

  datatype AdDetail = AdDetail(
    businessType: string,          // webengage.business_type
    price: Option<int>,            // webengage.price
    brandModel: string,            // webengage.brand_model
    sections: seq<Section>,        // sections
    description: Option<string>,   // seo.description
    odometer: string)              // seo.post_seo_schema.mileageFromOdometer.value

  const TitleSection: string := "TITLE"

  /** `i` is the position of the first section named `name`. */
  predicate FirstSectionAt(sections: seq<Section>, name: string, i: int)
  {
    0 <= i < |sections| && sections[i].name == name && forall k :: 0 <= k < i ==> sections[k].name != name
  }

  /** `j` is the position of the first widget of `ws` that satisfies `p`. */
  predicate FirstWidgetAt(ws: seq<Widget>, p: Widget -> bool, j: int)
  {
    0 <= j < |ws| && p(ws[j]) && forall k :: 0 <= k < j ==> !p(ws[k])
  }

  /** `sections.find(sec => sec.section_name === name)`. */
  function FindSection(sections: seq<Section>, name: string): (r: Option<Section>)
    ensures r.Some? ==> r.value in sections && r.value.name == name
    ensures r.None? <==> forall i :: 0 <= i < |sections| ==> sections[i].name != name
    ensures forall i :: FirstSectionAt(sections, name, i) ==> r == Some(sections[i])
    ensures r.Some? ==> exists i :: FirstSectionAt(sections, name, i) && r.value == sections[i]
  {
    FindFirst(sections, (s: Section) => s.name == name)
  }

  /** `widgets.find(p)`. */
  function FindWidget(ws: seq<Widget>, p: Widget -> bool): (r: Option<Widget>)
    ensures r.None? <==> forall j :: 0 <= j < |ws| ==> !p(ws[j])
    ensures forall j :: FirstWidgetAt(ws, p, j) ==> r == Some(ws[j])
    ensures r.Some? ==> exists j :: FirstWidgetAt(ws, p, j) && r.value == ws[j]
  {
    FindFirst(ws, p)
  }

  predicate IsScoreRow(w: Widget) { w.ScoreRow? }
  predicate IsGroupInfoRow(w: Widget) { w.GroupInfoRow? }
  predicate IsUnexpandableRow(w: Widget) { w.UnexpandableRow? }
  predicate IsExpandableSection(w: Widget) { w.ExpandableSection? }
  predicate IsMapRow(w: Widget) { w.MapRow? }

  /** The widgets of the LIST_DATA section; none when it is missing. */
  function ListDataWidgets(d: AdDetail): seq<Widget>
  {
    match FindSection(d.sections, L.ListData)
    case None => []
    case Some(s) => s.widgets
  }

  /** `webengage?.price || 0`. */
  function ListedPrice(d: AdDetail): int
  {
    match d.price
    case None => 0
    case Some(p) => p
  }

  /** `seo?.description || "توضیحاتی درج نشده است."` (bot/index.js:1073-1074). */
  function DescriptionOrPlaceholder(d: AdDetail): (r: string)
    ensures r != ""
    ensures d.description.Some? && d.description.value != "" ==> r == d.description.value
  {
    if d.description.Some? && d.description.value != "" then d.description.value else L.NoDescription
  }

  /** `sections.find(TITLE)?.widgets?.find(EXPANDABLE_SECTION)?.data
      ?.widget_list[0]?.data?.text`, "" when any link is missing. */
  function TitleText(d: AdDetail): (text: string)
    ensures forall i, j :: FirstSectionAt(d.sections, TitleSection, i)
                           && FirstWidgetAt(d.sections[i].widgets, IsExpandableSection, j)
                           ==> text == OrEmpty(d.sections[i].widgets[j].text)
    ensures text != "" ==> exists i, j :: FirstSectionAt(d.sections, TitleSection, i)
                                       && FirstWidgetAt(d.sections[i].widgets, IsExpandableSection, j)
  {
    match FindSection(d.sections, TitleSection)
    case None => ""
    case Some(s) =>
      match FindWidget(s.widgets, IsExpandableSection)
      case None => ""
      case Some(w) => OrEmpty(w.text)
  }

  function OrEmpty(text: Option<string>): string
  {
    if text.Some? then text.value else ""
  }

  /** The publication time shown in an alert: the TITLE section's text up to
      its first line break, or "لحظاتی پیش" when that first line is empty
      (bot/index.js:1062-1066). */
  function PublishTimeText(d: AdDetail): (r: string)
    ensures r != ""
    ensures !Contains(r, "\n")
    ensures var text := TitleText(d);
            text != "" && text[0] != '\n' ==> IsPrefix(r, text) && (|r| == |text| || text[|r|] == '\n')
    ensures var text := TitleText(d);
            text == "" || text[0] == '\n' ==> r == L.JustNow
  {
    var firstLine := FirstLine(TitleText(d));
    JustNowIsOneLine();
    if firstLine != "" then firstLine else L.JustNow
  }

  /** `text.split("\n")[0]`: the text up to its first line break. */
  function FirstLine(text: string): (line: string)
    ensures IsPrefix(line, text) && (|line| == |text| || text[|line|] == '\n')
    ensures !Contains(line, "\n")
  {
    var line := SplitOn(text, {'\n'})[0];
    FirstPiece(text, {'\n'});
    SplitPiecesHaveNoDelimiter(text, {'\n'});
    NoNewline(line);
    line
  }

  lemma JustNowIsOneLine()
    ensures L.JustNow != "" && !Contains(L.JustNow, "\n")
  {
    NoNewline(L.JustNow);
  }

  lemma NoNewline(s: string)
    requires forall c :: c in s ==> c != '\n'
    ensures !Contains(s, "\n")
  {
    assert forall i :: 0 <= i < |s| ==> s[i] in s;
    NotContainsForeign(s, "\n", 0, (c: char) => c != '\n');
  }

  /** The Google Maps link built from the MAP section's first MAP_ROW
      (bot/index.js:1077-1093): present exactly when that row carries an
      exact point, and then the prefix followed by its latitude, a comma and
      its longitude. */
  function MapUrl(d: AdDetail): (r: Option<string>)
    ensures r.Some? ==> IsPrefix(L.MapUrlPrefix, r.value)
    ensures r.Some? ==> exists i, j :: FirstSectionAt(d.sections, L.MapSection, i)
                                     && FirstWidgetAt(d.sections[i].widgets, IsMapRow, j)
                                     && d.sections[i].widgets[j].point.Some?
    ensures forall i, j :: FirstSectionAt(d.sections, L.MapSection, i)
                           && FirstWidgetAt(d.sections[i].widgets, IsMapRow, j)
                           ==> var point := d.sections[i].widgets[j].point;
                               (r.Some? <==> point.Some?)
                               && (point.Some? ==> r.value == L.MapUrlPrefix + point.value.latitude + "," + point.value.longitude)
  {
    match FindSection(d.sections, L.MapSection)
    case None => None
    case Some(s) =>
      match FindWidget(s.widgets, IsMapRow)
      case None => None
      case Some(w) =>
        if w.point.None? then None
        else Some(L.MapUrlPrefix + w.point.value.latitude + "," + w.point.value.longitude)
  }
}
