/** Reading the car's specifications from a listing's detail document
    (`extractCarSpecs`, bot/utils/index.js:294-336): year and mileage from the
    first GROUP_INFO_ROW, and every other specification as a title/value pair. */
module Specs {
  import opened Text
  import L = Lexicon
  import opened Payload

  datatype CarSpecs = CarSpecs(brandModel: string, year: string, mileage: string, extraSpecs: seq<InfoItem>)

  /** The items of the first GROUP_INFO_ROW of LIST_DATA; none when that row
      is missing or has no items. */
  function GroupItems(d: AdDetail): seq<InfoItem>
  {
    match FindFirst(ListDataWidgets(d), IsGroupInfoRow)
    case None => []
    case Some(w) => if w.items.Some? then w.items.value else []
  }

  /** The value of the last item titled `title`: later items overwrite earlier ones. */
  function LastValue(items: seq<InfoItem>, title: string): Option<string>
  {
    if items == [] then None
    else if items[|items| - 1].title == title then Some(items[|items| - 1].value)
    else LastValue(items[..|items| - 1], title)
  }

  lemma {:induction false} LastValueIsLast(items: seq<InfoItem>, title: string)
    ensures LastValue(items, title).None? <==> forall i :: 0 <= i < |items| ==> items[i].title != title
    ensures LastValue(items, title).Some? ==>
              exists i :: 0 <= i < |items| && items[i].title == title && items[i].value == LastValue(items, title).value
                          && forall j :: i < j < |items| ==> items[j].title != title
    decreases |items|
  {
    if items != [] && items[|items| - 1].title != title {
      LastValueIsLast(items[..|items| - 1], title);
    }
  }

  function ValueOrUnknown(o: Option<string>): string
  {
    if o.Some? then o.value else L.Unknown
  }

  /** A group item other than the year and the mileage. */
  predicate IsExtraItem(item: InfoItem)
  {
    item.title != L.YearTitle && item.title != L.MileageTitle
  }

  /** An UNEXPANDABLE_ROW with a title and a value, other than the base price. */
  predicate IsKeptRow(w: Widget)
  {
    w.UnexpandableRow? && w.title != "" && w.value != "" && w.title != L.BasePriceTitle
  }

  /** The specifications the kept UNEXPANDABLE_ROWs contribute, in order. */
  function RowSpecs(ws: seq<Widget>): seq<InfoItem>
  {
    if ws == [] then []
    else
      var w := ws[|ws| - 1];
      RowSpecs(ws[..|ws| - 1]) + (if IsKeptRow(w) then [InfoItem(w.title, w.value)] else [])
  }

  lemma RowSpecsPrefixStep(ws: seq<Widget>, i: nat)
    requires i < |ws|
    ensures RowSpecs(ws[..i + 1]) == RowSpecs(ws[..i]) + (if IsKeptRow(ws[i]) then [InfoItem(ws[i].title, ws[i].value)] else [])
  {
    assert ws[..i + 1][..i] == ws[..i];
  }

  /** What `extractCarSpecs` returns. */
  function ExtractSpecs(d: AdDetail): CarSpecs
  {
    var items := GroupItems(d);
    CarSpecs(d.brandModel, ValueOrUnknown(LastValue(items, L.YearTitle)), ValueOrUnknown(LastValue(items, L.MileageTitle)),
             Filter(items, IsExtraItem) + RowSpecs(Filter(ListDataWidgets(d), IsUnexpandableRow)))
  }

  /** The loop over the group items (bot/utils/index.js:308-312). */
  method ReadGroupItems(items: seq<InfoItem>) returns (year: string, mileage: string, extraSpecs: seq<InfoItem>)
    ensures year == ValueOrUnknown(LastValue(items, L.YearTitle))
    ensures mileage == ValueOrUnknown(LastValue(items, L.MileageTitle))
    ensures extraSpecs == Filter(items, IsExtraItem)
  {
    year, mileage, extraSpecs := L.Unknown, L.Unknown, [];
    for i := 0 to |items|
      invariant year == ValueOrUnknown(LastValue(items[..i], L.YearTitle))
      invariant mileage == ValueOrUnknown(LastValue(items[..i], L.MileageTitle))
      invariant extraSpecs == Filter(items[..i], IsExtraItem)
    {
      assert items[..i + 1][..i] == items[..i];
      FilterPrefixStep(items, i, IsExtraItem);
      var item := items[i];
      if item.title == L.YearTitle {
        year := item.value;
      } else if item.title == L.MileageTitle {
        mileage := item.value;
      } else {
        extraSpecs := extraSpecs + [item];
      }
    }
    assert items[..|items|] == items;
  }

  /** The loop over the UNEXPANDABLE_ROWs (bot/utils/index.js:316-329),
      appending to the specifications read so far. */
  method ReadSpecRows(rows: seq<Widget>, extraSpecs0: seq<InfoItem>) returns (extraSpecs: seq<InfoItem>)
    requires forall i :: 0 <= i < |rows| ==> rows[i].UnexpandableRow?
    ensures extraSpecs == extraSpecs0 + RowSpecs(rows)
  {
    extraSpecs := extraSpecs0;
    for i := 0 to |rows|
      invariant extraSpecs == extraSpecs0 + RowSpecs(rows[..i])
    {
      RowSpecsPrefixStep(rows, i);
      var title, value := rows[i].title, rows[i].value;
      if title != "" && value != "" && title != L.BasePriceTitle {
        extraSpecs := extraSpecs + [InfoItem(title, value)];
      }
    }
    assert rows[..|rows|] == rows;
  }

  /** `extractCarSpecs(divarJson)`. */
  method ExtractCarSpecs(d: AdDetail) returns (r: CarSpecs)
    ensures r == ExtractSpecs(d)
  {
    var year, mileage := L.Unknown, L.Unknown;
    var extraSpecs: seq<InfoItem> := [];
    var listData := FindSection(d.sections, L.ListData);
    if listData.Some? {
      var widgets := listData.value.widgets;
      var groupInfo := FindFirst(widgets, IsGroupInfoRow);
      if groupInfo.Some? && groupInfo.value.items.Some? {
        year, mileage, extraSpecs := ReadGroupItems(groupInfo.value.items.value);
      }
      var rows := Filter(widgets, IsUnexpandableRow);
      FilterKeepsAll(widgets, IsUnexpandableRow);
      extraSpecs := ReadSpecRows(rows, extraSpecs);
    } else {
      assert GroupItems(d) == [] && ListDataWidgets(d) == [];
    }
    r := CarSpecs(d.brandModel, year, mileage, extraSpecs);
  }

  // ---------------------------------------------------------------------------
  // What the extraction promises
  // ---------------------------------------------------------------------------

  lemma {:induction false} RowSpecsMembership(ws: seq<Widget>, x: InfoItem)
    ensures x in RowSpecs(ws) <==>
              x.title != "" && x.value != "" && x.title != L.BasePriceTitle && UnexpandableRow(x.title, x.value) in ws
    decreases |ws|
  {
    if ws != [] {
      RowSpecsMembership(ws[..|ws| - 1], x);
      assert ws == ws[..|ws| - 1] + [ws[|ws| - 1]];
    }
  }

  /** A specification is listed exactly when it is a group item other than
      the year and the mileage, or an UNEXPANDABLE_ROW of LIST_DATA with a
      title and a value that is not the base price. */
  lemma ExtraSpecsMembership(d: AdDetail, x: InfoItem)
    ensures x in ExtractSpecs(d).extraSpecs <==>
              (x in GroupItems(d) && x.title != L.YearTitle && x.title != L.MileageTitle)
              || (x.title != "" && x.value != "" && x.title != L.BasePriceTitle
                  && UnexpandableRow(x.title, x.value) in ListDataWidgets(d))
  {
    var ws := ListDataWidgets(d);
    RowSpecsMembership(Filter(ws, IsUnexpandableRow), x);
    var w := UnexpandableRow(x.title, x.value);
    assert w in Filter(ws, IsUnexpandableRow) <==> w in ws;
  }

  /** The year is the value of the last group item titled with the year, and
      "نامشخص" when there is none; likewise the mileage. */
  lemma YearAndMileageAreLast(d: AdDetail)
    ensures var items := GroupItems(d);
            (forall i :: 0 <= i < |items| ==> items[i].title != L.YearTitle) ==> ExtractSpecs(d).year == L.Unknown
    ensures var items := GroupItems(d);
            forall i :: 0 <= i < |items| && items[i].title == L.YearTitle
                        && (forall j :: i < j < |items| ==> items[j].title != L.YearTitle)
                        ==> ExtractSpecs(d).year == items[i].value
    ensures var items := GroupItems(d);
            (forall i :: 0 <= i < |items| ==> items[i].title != L.MileageTitle) ==> ExtractSpecs(d).mileage == L.Unknown
    ensures var items := GroupItems(d);
            forall i :: 0 <= i < |items| && items[i].title == L.MileageTitle
                        && (forall j :: i < j < |items| ==> items[j].title != L.MileageTitle)
                        ==> ExtractSpecs(d).mileage == items[i].value
  {
    var items := GroupItems(d);
    assert ExtractSpecs(d).year == ValueOrUnknown(LastValue(items, L.YearTitle));
    assert ExtractSpecs(d).mileage == ValueOrUnknown(LastValue(items, L.MileageTitle));
    ValueOfLast(items, L.YearTitle);
    ValueOfLast(items, L.MileageTitle);
  }

  /** The value read for a title is that of its last item, or unknown. */
  lemma ValueOfLast(items: seq<InfoItem>, title: string)
    ensures (forall i :: 0 <= i < |items| ==> items[i].title != title) ==> ValueOrUnknown(LastValue(items, title)) == L.Unknown
    ensures forall i :: 0 <= i < |items| && items[i].title == title && (forall j :: i < j < |items| ==> items[j].title != title)
                        ==> ValueOrUnknown(LastValue(items, title)) == items[i].value
  {
    LastValueIsLast(items, title);
  }

  /** The group's specifications come first, in their order, before those of
      the UNEXPANDABLE_ROWs; nothing is invented. */
  lemma ExtraSpecsOrder(d: AdDetail)
    ensures var extras := ExtractSpecs(d).extraSpecs;
            var group := Filter(GroupItems(d), IsExtraItem);
            |group| <= |extras| && extras[..|group|] == group
    ensures IsSubsequence(Filter(GroupItems(d), IsExtraItem), GroupItems(d))
  {
    FilterIsSubsequence(GroupItems(d), IsExtraItem);
  }
}
