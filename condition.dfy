/** Reading the car's condition from a listing's detail document
    (`analyzeCarCondition`, bot/utils/index.js:89-235): the seller tag, the
    structured chassis / body / engine rows, and the guesses from the free
    description when those rows are missing. */
module Condition {
  import opened Text
  import L = Lexicon
  import opened Payload

  datatype CarCondition = CarCondition(tags: seq<string>, chassis: string, body: string, engine: string)

  /** A value together with the tags it contributes. */
  datatype Finding = Finding(value: string, tags: seq<string>)

  predicate AllScoreRows(rows: seq<Widget>)
  {
    forall i :: 0 <= i < |rows| ==> rows[i].ScoreRow?
  }

  /** The SCORE_ROW widgets of the LIST_DATA section, in order. */
  function ScoreRows(d: AdDetail): (rows: seq<Widget>)
    ensures AllScoreRows(rows)
    ensures forall w :: w in rows <==> w in ListDataWidgets(d) && w.ScoreRow?
    ensures IsSubsequence(rows, ListDataWidgets(d))
  {
    var rows := Filter(ListDataWidgets(d), IsScoreRow);
    assert forall i :: 0 <= i < |rows| ==> rows[i] in rows;
    FilterIsSubsequence(ListDataWidgets(d), IsScoreRow);
    rows
  }

  function SellerTag(d: AdDetail): string
  {
    if d.businessType == L.Personal then L.ConsumerTag else L.DealerTag
  }

  predicate IsGoodChassis(t: string)
  {
    Contains(t, L.GoodChassisWord0) || Contains(t, L.GoodChassisWord1)
  }

  function BodyTag(score: string): string
  {
    if Contains(score, L.CleanBodyWord0) || Contains(score, L.CleanBodyWord1) || Contains(score, L.CleanBodyWord2)
    then L.CleanBodyTag
    else if Contains(score, L.DamagedBodyWord0) || Contains(score, L.DamagedBodyWord1) || Contains(score, L.DamagedBodyWord2)
    then L.DamagedBodyPrefix + score
    else L.OtherBodyPrefix + score
  }

  function EngineTag(score: string): string
  {
    if Contains(score, L.HealthyEngineWord) then L.HealthyEngineTag else L.EngineWarningPrefix + score
  }

  /** The tags one score row pushes: body and engine rows push one each. */
  function TagsOfRow(w: Widget): seq<string>
    requires w.ScoreRow?
  {
    (if w.title == L.BodyTitle then [BodyTag(w.score)] else [])
    + (if w.title == L.EngineTitle then [EngineTag(w.score)] else [])
  }

  function RowTags(rows: seq<Widget>): seq<string>
    requires AllScoreRows(rows)
  {
    if rows == [] then [] else RowTags(rows[..|rows| - 1]) + TagsOfRow(rows[|rows| - 1])
  }

  /** The score of the last row titled `title`: later rows overwrite earlier ones. */
  function LastScore(rows: seq<Widget>, title: string): (r: Option<string>)
    requires AllScoreRows(rows)
  {
    if rows == [] then None
    else if rows[|rows| - 1].title == title then Some(rows[|rows| - 1].score)
    else LastScore(rows[..|rows| - 1], title)
  }

  /** `LastScore` finds the last row with the title, and nothing when there is none. */
  lemma LastScoreIsLast(rows: seq<Widget>, title: string)
    requires AllScoreRows(rows)
    ensures LastScore(rows, title).None? <==> forall i :: 0 <= i < |rows| ==> rows[i].title != title
    ensures LastScore(rows, title).Some? ==>
              exists i :: 0 <= i < |rows| && rows[i].title == title && rows[i].score == LastScore(rows, title).value
                          && forall j :: i < j < |rows| ==> rows[j].title != title
  {
    LastScoreNone(rows, title);
    LastScoreSome(rows, title);
  }

  lemma {:induction false} LastScoreNone(rows: seq<Widget>, title: string)
    requires AllScoreRows(rows)
    ensures LastScore(rows, title).None? <==> forall i :: 0 <= i < |rows| ==> rows[i].title != title
    decreases |rows|
  {
    if rows != [] {
      var n := |rows| - 1;
      LastScoreNone(rows[..n], title);
      assert forall i :: 0 <= i < n ==> rows[..n][i] == rows[i];
    }
  }

  lemma {:induction false} LastScoreSome(rows: seq<Widget>, title: string)
    requires AllScoreRows(rows)
    ensures LastScore(rows, title).Some? ==>
              exists i :: 0 <= i < |rows| && rows[i].title == title && rows[i].score == LastScore(rows, title).value
                          && forall j :: i < j < |rows| ==> rows[j].title != title
    decreases |rows|
  {
    if rows != [] && rows[|rows| - 1].title != title {
      var n := |rows| - 1;
      var init := rows[..n];
      LastScoreSome(init, title);
      if LastScore(init, title).Some? {
        var i :| 0 <= i < n && init[i].title == title && init[i].score == LastScore(init, title).value
                 && forall j :: i < j < n ==> init[j].title != title;
        assert rows[i] == init[i];
      }
    }
  }

  function OrElse(o: Option<string>, default: string): string
  {
    if o.Some? then o.value else default
  }

  predicate HasChassisRow(rows: seq<Widget>)
    requires AllScoreRows(rows)
  {
    LastScore(rows, L.GeneralChassisTitle).Some? || LastScore(rows, L.FrontChassisTitle).Some?
    || LastScore(rows, L.RearChassisTitle).Some?
  }

  function ChassisPartTag(score: string, sealedTag: string, warningPrefix: string): string
  {
    if IsGoodChassis(score) then sealedTag else warningPrefix + score
  }

  /** The chassis when chassis rows exist: the general row wins when its score
      is non-empty; otherwise the front and rear parts joined with " | ". */
  function StructuredChassis(general: string, front: string, rear: string): Finding
  {
    if general != "" then
      Finding(general, [ChassisPartTag(general, L.SealedChassisTag, L.ChassisWarningPrefix)])
    else
      var parts := (if front != "" then [L.FrontPartPrefix + front] else [])
                   + (if rear != "" then [L.RearPartPrefix + rear] else []);
      var tags := (if front != "" then [ChassisPartTag(front, L.SealedFrontTag, L.FrontWarningPrefix)] else [])
                  + (if rear != "" then [ChassisPartTag(rear, L.SealedRearTag, L.RearWarningPrefix)] else []);
      Finding(Join(parts, L.PartSeparator), tags)
  }

  /** `seo.description`, zero-width non-joiners turned into spaces, lower-cased. */
  function NormalizedDescription(d: AdDetail): string
  {
    var description := if d.description.Some? then d.description.value else "";
    ToLower(ReplaceChar(description, '\U{200C}', ' '))
  }

  /** The chassis guessed from the description: damage is looked for first. */
  function GuessChassis(desc: string): Finding
  {
    if AnyMatches(desc, L.DamagedChassisText) then Finding(L.GuessedDamagedChassis, [L.GuessedDamagedChassisTag])
    else if AnyMatches(desc, L.SealedChassisText) then Finding(L.GuessedSealedChassis, [L.SealedChassisTag])
    else Finding(L.Unknown, [])
  }

  /** The body guessed from the description: paint or crash is looked for first. */
  function GuessBody(desc: string): Finding
  {
    if AnyMatches(desc, L.PaintedBodyText) then Finding(L.GuessedPaintedBody, [L.GuessedPaintedBodyTag])
    else if AnyMatches(desc, L.CleanBodyText) then Finding(L.GuessedCleanBody, [L.GuessedCleanBodyTag])
    else Finding(L.Unknown, [])
  }

  lemma LastScoreSnoc(rows: seq<Widget>, i: nat, title: string)
    requires AllScoreRows(rows) && i < |rows|
    ensures LastScore(rows[..i + 1], title) ==
              if rows[i].title == title then Some(rows[i].score) else LastScore(rows[..i], title)
  {
    assert rows[..i + 1][..i] == rows[..i];
  }

  lemma RowTagsSnoc(rows: seq<Widget>, i: nat)
    requires AllScoreRows(rows) && i < |rows|
    ensures RowTags(rows[..i + 1]) == RowTags(rows[..i]) + TagsOfRow(rows[i])
  {
    assert rows[..i + 1][..i] == rows[..i];
  }

  /** What the pass over the score rows leaves behind. */
  datatype RowReading = RowReading(
    tags: seq<string>, hasChassis: bool, general: string, front: string, rear: string,
    hasBody: bool, body: string, engine: string)

  function ReadRows(rows: seq<Widget>): RowReading
    requires AllScoreRows(rows)
  {
    RowReading(RowTags(rows), HasChassisRow(rows),
               OrElse(LastScore(rows, L.GeneralChassisTitle), ""),
               OrElse(LastScore(rows, L.FrontChassisTitle), ""),
               OrElse(LastScore(rows, L.RearChassisTitle), ""),
               LastScore(rows, L.BodyTitle).Some?,
               OrElse(LastScore(rows, L.BodyTitle), L.Unknown),
               OrElse(LastScore(rows, L.EngineTitle), L.Unknown))
  }

  /** The state after one more score row: a chassis row sets its part, a
      body or engine row sets its value and pushes its tag. */
  function AfterRow(r: RowReading, w: Widget): RowReading
    requires w.ScoreRow?
  {
    var t := w.title;
    RowReading(r.tags + TagsOfRow(w),
               r.hasChassis || t == L.GeneralChassisTitle || t == L.FrontChassisTitle || t == L.RearChassisTitle,
               if t == L.GeneralChassisTitle then w.score else r.general,
               if t == L.FrontChassisTitle then w.score else r.front,
               if t == L.RearChassisTitle then w.score else r.rear,
               r.hasBody || t == L.BodyTitle,
               if t == L.BodyTitle then w.score else r.body,
               if t == L.EngineTitle then w.score else r.engine)
  }

  lemma ReadRowsSnoc(rows: seq<Widget>, i: nat)
    requires AllScoreRows(rows) && i < |rows|
    ensures ReadRows(rows[..i + 1]) == AfterRow(ReadRows(rows[..i]), rows[i])
  {
    LastScoreSnoc(rows, i, L.GeneralChassisTitle);
    LastScoreSnoc(rows, i, L.FrontChassisTitle);
    LastScoreSnoc(rows, i, L.RearChassisTitle);
    LastScoreSnoc(rows, i, L.BodyTitle);
    LastScoreSnoc(rows, i, L.EngineTitle);
    RowTagsSnoc(rows, i);
  }

  /** The chassis: from the rows when there are chassis rows, otherwise
      guessed from the description. */
  function ChassisFrom(reading: RowReading, desc: string): Finding
  {
    if reading.hasChassis then StructuredChassis(reading.general, reading.front, reading.rear)
    else GuessChassis(desc)
  }

  /** The body: the last body row's score, otherwise guessed from the description. */
  function BodyFrom(reading: RowReading, desc: string): Finding
  {
    if reading.hasBody then Finding(reading.body, []) else GuessBody(desc)
  }

  function ChassisOf(d: AdDetail): Finding
  {
    ChassisFrom(ReadRows(ScoreRows(d)), NormalizedDescription(d))
  }

  function BodyOf(d: AdDetail): Finding
  {
    BodyFrom(ReadRows(ScoreRows(d)), NormalizedDescription(d))
  }

  /** What `analyzeCarCondition` computes: the seller tag, the row tags, then
      the chassis and body tags, in the order they are pushed. */
  function Analyze(d: AdDetail): CarCondition
  {
    var reading := ReadRows(ScoreRows(d));
    var chassis := ChassisOf(d);
    var body := BodyOf(d);
    CarCondition([SellerTag(d)] + reading.tags + chassis.tags + body.tags, chassis.value, body.value, reading.engine)
  }

  lemma AnalyzeByParts(d: AdDetail, reading: RowReading)
    requires reading == ReadRows(ScoreRows(d))
    ensures var desc := NormalizedDescription(d);
            Analyze(d) == CarCondition([SellerTag(d)] + reading.tags + ChassisFrom(reading, desc).tags + BodyFrom(reading, desc).tags,
                                       ChassisFrom(reading, desc).value, BodyFrom(reading, desc).value, reading.engine)
  {
  }

  /** The loop over the LIST_DATA score rows (bot/utils/index.js:113-176). */
  method ScanScoreRows(rows: seq<Widget>) returns (r: RowReading)
    requires AllScoreRows(rows)
    ensures r == ReadRows(rows)
  {
    var tags: seq<string> := [];
    var body, engine := L.Unknown, L.Unknown;
    var hasStructuredChassis, hasStructuredBody := false, false;
    var front, rear, general := "", "", "";
    for i := 0 to |rows|
      invariant RowReading(tags, hasStructuredChassis, general, front, rear, hasStructuredBody, body, engine)
                == ReadRows(rows[..i])
    {
      ReadRowsSnoc(rows, i);
      var title, score := rows[i].title, rows[i].score;
      if title == L.GeneralChassisTitle {
        hasStructuredChassis := true;
        general := score;
      } else if title == L.FrontChassisTitle {
        hasStructuredChassis := true;
        front := score;
      } else if title == L.RearChassisTitle {
        hasStructuredChassis := true;
        rear := score;
      }
      if title == L.BodyTitle {
        hasStructuredBody := true;
        body := score;
        if Contains(score, L.CleanBodyWord0) || Contains(score, L.CleanBodyWord1) || Contains(score, L.CleanBodyWord2) {
          tags := tags + [L.CleanBodyTag];
        } else if Contains(score, L.DamagedBodyWord0) || Contains(score, L.DamagedBodyWord1) || Contains(score, L.DamagedBodyWord2) {
          tags := tags + [L.DamagedBodyPrefix + score];
        } else {
          tags := tags + [L.OtherBodyPrefix + score];
        }
      }
      if title == L.EngineTitle {
        engine := score;
        if Contains(score, L.HealthyEngineWord) {
          tags := tags + [L.HealthyEngineTag];
        } else {
          tags := tags + [L.EngineWarningPrefix + score];
        }
      }
    }
    assert rows[..|rows|] == rows;
    r := RowReading(tags, hasStructuredChassis, general, front, rear, hasStructuredBody, body, engine);
  }

  /** The chassis from the structured rows (bot/utils/index.js:178-200). */
  method ReadStructuredChassis(general: string, front: string, rear: string) returns (f: Finding)
    ensures f == StructuredChassis(general, front, rear)
  {
    var tags: seq<string> := [];
    if general != "" {
      if IsGoodChassis(general) {
        tags := tags + [L.SealedChassisTag];
      } else {
        tags := tags + [L.ChassisWarningPrefix + general];
      }
      f := Finding(general, tags);
    } else {
      var parts: seq<string> := [];
      if front != "" {
        parts := parts + [L.FrontPartPrefix + front];
        if IsGoodChassis(front) {
          tags := tags + [L.SealedFrontTag];
        } else {
          tags := tags + [L.FrontWarningPrefix + front];
        }
      }
      if rear != "" {
        parts := parts + [L.RearPartPrefix + rear];
        if IsGoodChassis(rear) {
          tags := tags + [L.SealedRearTag];
        } else {
          tags := tags + [L.RearWarningPrefix + rear];
        }
      }
      f := Finding(Join(parts, L.PartSeparator), tags);
    }
  }

  /** The chassis: from the rows when there are chassis rows, otherwise
      guessed from the description, damage first (bot/utils/index.js:178-221). */
  method ReadChassis(reading: RowReading, desc: string) returns (chassis: Finding)
    ensures chassis == ChassisFrom(reading, desc)
  {
    chassis := Finding(L.Unknown, []);
    if reading.hasChassis {
      chassis := ReadStructuredChassis(reading.general, reading.front, reading.rear);
    } else if AnyMatches(desc, L.DamagedChassisText) {
      chassis := Finding(L.GuessedDamagedChassis, [L.GuessedDamagedChassisTag]);
    } else if AnyMatches(desc, L.SealedChassisText) {
      chassis := Finding(L.GuessedSealedChassis, [L.SealedChassisTag]);
    }
  }

  /** The body: from the rows when there is a body row, otherwise guessed
      from the description, paint first (bot/utils/index.js:223-232). */
  method ReadBody(reading: RowReading, desc: string) returns (body: Finding)
    ensures body == BodyFrom(reading, desc)
  {
    body := Finding(L.Unknown, []);
    if reading.hasBody {
      body := Finding(reading.body, []);
    } else {
      if AnyMatches(desc, L.PaintedBodyText) {
        body := Finding(L.GuessedPaintedBody, [L.GuessedPaintedBodyTag]);
      } else if AnyMatches(desc, L.CleanBodyText) {
        body := Finding(L.GuessedCleanBody, [L.GuessedCleanBodyTag]);
      }
    }
  }

  /** `analyzeCarCondition(divarJson)`, step by step as the source does it. */
  method AnalyzeCarCondition(d: AdDetail) returns (c: CarCondition)
    ensures c == Analyze(d)
  {
    var tags: seq<string> := [];
    if d.businessType == L.Personal {
      tags := tags + [L.ConsumerTag];
    } else {
      tags := tags + [L.DealerTag];
    }
    assert tags == [SellerTag(d)];
    var reading := RowReading([], false, "", "", "", false, L.Unknown, L.Unknown);
    var listData := FindSection(d.sections, L.ListData);
    if listData.Some? {
      var rows := Filter(listData.value.widgets, IsScoreRow);
      assert rows == ScoreRows(d);
      reading := ScanScoreRows(rows);
    } else {
      assert ScoreRows(d) == [];
    }
    assert reading == ReadRows(ScoreRows(d));
    tags := tags + reading.tags;

    var desc := NormalizedDescription(d);
    var chassis := ReadChassis(reading, desc);
    var body := ReadBody(reading, desc);
    AnalyzeByParts(d, reading);
    c := CarCondition(tags + chassis.tags + body.tags, chassis.value, body.value, reading.engine);
  }

  // ---------------------------------------------------------------------------
  // What the analysis promises
  // ---------------------------------------------------------------------------

  /** The tags a score row can push. */
  predicate IsRowTag(t: string)
  {
    t == L.CleanBodyTag || t == L.HealthyEngineTag || IsPrefix(L.DamagedBodyPrefix, t)
    || IsPrefix(L.OtherBodyPrefix, t) || IsPrefix(L.EngineWarningPrefix, t)
  }

  /** The tags the chassis can push, from the rows or from the text. */
  predicate IsChassisTag(t: string)
  {
    t == L.SealedChassisTag || t == L.SealedFrontTag || t == L.SealedRearTag || t == L.GuessedDamagedChassisTag
    || IsPrefix(L.ChassisWarningPrefix, t) || IsPrefix(L.FrontWarningPrefix, t) || IsPrefix(L.RearWarningPrefix, t)
  }

  predicate IsBodyGuessTag(t: string)
  {
    t == L.GuessedPaintedBodyTag || t == L.GuessedCleanBodyTag
  }

  lemma {:induction false} RowTagsAreRowTags(rows: seq<Widget>)
    requires AllScoreRows(rows)
    ensures forall t :: t in RowTags(rows) ==> IsRowTag(t)
    decreases |rows|
  {
    if rows != [] {
      RowTagsAreRowTags(rows[..|rows| - 1]);
      var w := rows[|rows| - 1];
      assert IsRowTag(BodyTag(w.score));
      assert IsRowTag(EngineTag(w.score));
    }
  }

  lemma StructuredChassisTags(general: string, front: string, rear: string)
    ensures forall t :: t in StructuredChassis(general, front, rear).tags ==> IsChassisTag(t)
  {
    assert IsPrefix(L.ChassisWarningPrefix, L.ChassisWarningPrefix + general);
    assert IsPrefix(L.FrontWarningPrefix, L.FrontWarningPrefix + front);
    assert IsPrefix(L.RearWarningPrefix, L.RearWarningPrefix + rear);
  }

  lemma ChassisOfTags(d: AdDetail)
    ensures forall t :: t in ChassisOf(d).tags ==> IsChassisTag(t)
  {
    var reading := ReadRows(ScoreRows(d));
    StructuredChassisTags(reading.general, reading.front, reading.rear);
  }

  /** Where each tag of the result comes from. */
  lemma TagsByOrigin(d: AdDetail, t: string)
    requires t in Analyze(d).tags
    ensures t == SellerTag(d) || IsRowTag(t) || t in ChassisOf(d).tags || (t in BodyOf(d).tags && IsBodyGuessTag(t))
  {
    var reading := ReadRows(ScoreRows(d));
    assert Analyze(d).tags == [SellerTag(d)] + reading.tags + ChassisOf(d).tags + BodyOf(d).tags;
    RowTagsAreRowTags(ScoreRows(d));
    BodyTagsAreGuesses(reading, NormalizedDescription(d));
  }

  lemma BodyTagsAreGuesses(reading: RowReading, desc: string)
    ensures forall t :: t in BodyFrom(reading, desc).tags ==> IsBodyGuessTag(t)
  {
  }

  /** A string whose character at `k` differs from a prefix's does not start with it. */
  lemma NotPrefixAt(p: string, t: string, k: nat)
    requires k < |p| && k < |t| && p[k] != t[k]
    ensures !IsPrefix(p, t)
  {
  }

  /** A tag that leads with a marker none of the row and chassis tags use is
      neither. */
  lemma ForeignLead(t: string)
    requires |t| > 0 && t[0] != '✨' && t[0] != '🚨' && t[0] != '🖍' && t[0] != '⚙' && t[0] != '⚠' && t[0] != '✅'
    ensures !IsRowTag(t) && !IsChassisTag(t)
  {
    assert L.CleanBodyTag[0] == '✨' && L.HealthyEngineTag[0] == '⚙';
    assert L.SealedChassisTag[0] == '✅' && L.SealedFrontTag[0] == '✅' && L.SealedRearTag[0] == '✅';
    assert L.GuessedDamagedChassisTag[0] == '🚨';
    NotPrefixAt(L.DamagedBodyPrefix, t, 0);
    NotPrefixAt(L.OtherBodyPrefix, t, 0);
    NotPrefixAt(L.EngineWarningPrefix, t, 0);
    NotPrefixAt(L.ChassisWarningPrefix, t, 0);
    NotPrefixAt(L.FrontWarningPrefix, t, 0);
    NotPrefixAt(L.RearWarningPrefix, t, 0);
  }

  /** The seller tags lead with markers no other tag uses. */
  lemma SellerTagsStandApart()
    ensures !IsRowTag(L.ConsumerTag) && !IsChassisTag(L.ConsumerTag) && !IsBodyGuessTag(L.ConsumerTag)
    ensures !IsRowTag(L.DealerTag) && !IsChassisTag(L.DealerTag) && !IsBodyGuessTag(L.DealerTag)
  {
    assert L.ConsumerTag[0] == '👤' && L.DealerTag[0] == '🏢';
    assert L.GuessedPaintedBodyTag[0] == '🎨' && L.GuessedCleanBodyTag[0] == '✨';
    ForeignLead(L.ConsumerTag);
    ForeignLead(L.DealerTag);
  }

  /** The three sealed-chassis tags differ from each other and from every tag
      that is not a chassis tag. */
  lemma SealedTagsStandApart()
    ensures !IsRowTag(L.SealedChassisTag) && !IsBodyGuessTag(L.SealedChassisTag)
    ensures !IsRowTag(L.SealedFrontTag) && !IsBodyGuessTag(L.SealedFrontTag)
    ensures !IsRowTag(L.SealedRearTag) && !IsBodyGuessTag(L.SealedRearTag)
    ensures L.SealedChassisTag !in {L.ConsumerTag, L.DealerTag, L.SealedFrontTag, L.SealedRearTag, L.GuessedDamagedChassisTag}
    ensures L.SealedFrontTag !in {L.ConsumerTag, L.DealerTag} && L.SealedRearTag !in {L.ConsumerTag, L.DealerTag}
    ensures !IsPrefix(L.ChassisWarningPrefix, L.SealedChassisTag)
    ensures !IsPrefix(L.ChassisWarningPrefix, L.SealedFrontTag) && !IsPrefix(L.ChassisWarningPrefix, L.SealedRearTag)
  {
    SealedLead(L.SealedChassisTag);
    SealedLead(L.SealedFrontTag);
    SealedLead(L.SealedRearTag);
    assert |L.SealedChassisTag| != |L.SealedFrontTag| && |L.SealedChassisTag| != |L.SealedRearTag|;
  }

  /** A tag that leads with the sealed marker is no row tag, no body guess,
      no chassis warning and no tag of the seller or of a damage guess. */
  lemma SealedLead(t: string)
    requires |t| > 0 && t[0] == '✅'
    ensures !IsRowTag(t) && !IsBodyGuessTag(t) && !IsPrefix(L.ChassisWarningPrefix, t)
    ensures t != L.ConsumerTag && t != L.DealerTag && t != L.GuessedDamagedChassisTag
  {
    assert L.ConsumerTag[0] == '👤' && L.DealerTag[0] == '🏢' && L.GuessedDamagedChassisTag[0] == '🚨';
    assert L.CleanBodyTag[0] == '✨' && L.HealthyEngineTag[0] == '⚙';
    assert L.GuessedPaintedBodyTag[0] == '🎨' && L.GuessedCleanBodyTag[0] == '✨';
    NotPrefixAt(L.DamagedBodyPrefix, t, 0);
    NotPrefixAt(L.OtherBodyPrefix, t, 0);
    NotPrefixAt(L.EngineWarningPrefix, t, 0);
    NotPrefixAt(L.ChassisWarningPrefix, t, 0);
  }

  /** The damaged-chassis guess is no tag a row, the seller or the chassis rows push. */
  lemma DamagedGuessStandsApart()
    ensures !IsRowTag(L.GuessedDamagedChassisTag) && !IsBodyGuessTag(L.GuessedDamagedChassisTag)
    ensures L.GuessedDamagedChassisTag !in {L.ConsumerTag, L.DealerTag, L.SealedChassisTag, L.SealedFrontTag, L.SealedRearTag}
    ensures !IsPrefix(L.ChassisWarningPrefix, L.GuessedDamagedChassisTag)
    ensures !IsPrefix(L.FrontWarningPrefix, L.GuessedDamagedChassisTag)
    ensures !IsPrefix(L.RearWarningPrefix, L.GuessedDamagedChassisTag)
  {
    NotPrefixAt(L.DamagedBodyPrefix, L.GuessedDamagedChassisTag, 2);
    NotPrefixAt(L.OtherBodyPrefix, L.GuessedDamagedChassisTag, 0);
    NotPrefixAt(L.EngineWarningPrefix, L.GuessedDamagedChassisTag, 0);
    NotPrefixAt(L.ChassisWarningPrefix, L.GuessedDamagedChassisTag, 0);
    NotPrefixAt(L.FrontWarningPrefix, L.GuessedDamagedChassisTag, 0);
    NotPrefixAt(L.RearWarningPrefix, L.GuessedDamagedChassisTag, 0);
    assert L.GuessedDamagedChassisTag[0] == '🚨';
  }

  /** The body guesses are neither row tags nor chassis tags, and differ from each other. */
  lemma BodyGuessesStandApart()
    ensures !IsRowTag(L.GuessedPaintedBodyTag) && !IsChassisTag(L.GuessedPaintedBodyTag)
    ensures !IsRowTag(L.GuessedCleanBodyTag) && !IsChassisTag(L.GuessedCleanBodyTag)
    ensures L.GuessedPaintedBodyTag !in {L.ConsumerTag, L.DealerTag, L.GuessedCleanBodyTag}
    ensures L.GuessedCleanBodyTag !in {L.ConsumerTag, L.DealerTag}
  {
    assert L.GuessedPaintedBodyTag[0] == '🎨' && L.GuessedCleanBodyTag[0] == '✨';
    assert L.ConsumerTag[0] == '👤' && L.DealerTag[0] == '🏢';
    ForeignLead(L.GuessedPaintedBodyTag);
    var c := L.GuessedCleanBodyTag;
    assert |c| != |L.CleanBodyTag| && L.HealthyEngineTag[0] == '⚙';
    assert L.SealedChassisTag[0] == '✅' && L.SealedFrontTag[0] == '✅' && L.SealedRearTag[0] == '✅';
    assert L.GuessedDamagedChassisTag[0] == '🚨';
    NotPrefixAt(L.DamagedBodyPrefix, c, 0);
    NotPrefixAt(L.OtherBodyPrefix, c, 0);
    NotPrefixAt(L.EngineWarningPrefix, c, 0);
    NotPrefixAt(L.ChassisWarningPrefix, c, 0);
    NotPrefixAt(L.FrontWarningPrefix, c, 0);
    NotPrefixAt(L.RearWarningPrefix, c, 0);
  }

  /** The first tag names the seller: the consumer tag for a personal seller,
      the dealer tag otherwise, and neither appears again. */
  lemma SellerTagLeads(d: AdDetail)
    ensures Analyze(d).tags[0] == SellerTag(d)
    ensures L.ConsumerTag in Analyze(d).tags <==> d.businessType == L.Personal
    ensures L.DealerTag in Analyze(d).tags <==> d.businessType != L.Personal
  {
    var tags := Analyze(d).tags;
    ChassisOfTags(d);
    forall t | t in tags && t != SellerTag(d)
      ensures t != L.ConsumerTag && t != L.DealerTag
    {
      TagsByOrigin(d, t);
      SellerTagsStandApart();
    }
  }

  /** A non-empty general chassis score is the chassis: it alone decides the
      chassis tag, and the front and rear rows are ignored. */
  lemma GeneralChassisWins(d: AdDetail, g: string)
    requires LastScore(ScoreRows(d), L.GeneralChassisTitle) == Some(g) && g != ""
    ensures Analyze(d).chassis == g
    ensures L.SealedChassisTag in Analyze(d).tags <==> IsGoodChassis(g)
    ensures !IsGoodChassis(g) ==> L.ChassisWarningPrefix + g in Analyze(d).tags
    ensures L.SealedFrontTag !in Analyze(d).tags && L.SealedRearTag !in Analyze(d).tags
    ensures forall t :: t in Analyze(d).tags ==> !IsPrefix(L.FrontWarningPrefix, t) && !IsPrefix(L.RearWarningPrefix, t)
  {
    var chassisTag := ChassisPartTag(g, L.SealedChassisTag, L.ChassisWarningPrefix);
    assert ChassisOf(d) == Finding(g, [chassisTag]);
    SealedTagsStandApart();
    assert IsPrefix(L.ChassisWarningPrefix, L.ChassisWarningPrefix + g);
    forall t | t in Analyze(d).tags
      ensures t == chassisTag || t !in {L.SealedChassisTag, L.SealedFrontTag, L.SealedRearTag}
      ensures !IsPrefix(L.FrontWarningPrefix, t) && !IsPrefix(L.RearWarningPrefix, t)
    {
      TagsByOrigin(d, t);
      NoFrontOrRearWarning(t);
    }
  }

  /** Two prefixes that differ at a position they both have never start the
      same string. */
  lemma PrefixesClash(p: string, q: string, k: nat, t: string)
    requires k < |p| && k < |q| && p[k] != q[k]
    ensures IsPrefix(p, t) ==> !IsPrefix(q, t)
  {
    if IsPrefix(p, t) {
      assert t[..|p|][k] == t[k];
      NotPrefixAt(q, t, k);
    }
  }

  /** No tag other than a front or rear chassis tag starts like a front or
      rear warning. */
  lemma NoFrontOrRearWarning(t: string)
    requires t == L.ConsumerTag || t == L.DealerTag || IsRowTag(t) || IsBodyGuessTag(t)
             || t == L.SealedChassisTag || IsPrefix(L.ChassisWarningPrefix, t)
    ensures !IsPrefix(L.FrontWarningPrefix, t) && !IsPrefix(L.RearWarningPrefix, t)
  {
    var front, rear := L.FrontWarningPrefix, L.RearWarningPrefix;
    assert front[0] == '⚠' && rear[0] == '⚠' && front[3] == 'ج' && rear[3] == 'ع';
    assert L.ChassisWarningPrefix[3] == 'ش' && L.EngineWarningPrefix[3] == 'م';
    assert L.DamagedBodyPrefix[0] == '🚨' && L.OtherBodyPrefix[0] == '🖍';
    PrefixesClash(L.ChassisWarningPrefix, front, 3, t);
    PrefixesClash(L.ChassisWarningPrefix, rear, 3, t);
    PrefixesClash(L.EngineWarningPrefix, front, 3, t);
    PrefixesClash(L.EngineWarningPrefix, rear, 3, t);
    PrefixesClash(L.DamagedBodyPrefix, front, 0, t);
    PrefixesClash(L.DamagedBodyPrefix, rear, 0, t);
    PrefixesClash(L.OtherBodyPrefix, front, 0, t);
    PrefixesClash(L.OtherBodyPrefix, rear, 0, t);
    assert L.ConsumerTag[0] == '👤' && L.DealerTag[0] == '🏢' && L.SealedChassisTag[0] == '✅';
    assert L.GuessedPaintedBodyTag[0] == '🎨' && L.GuessedCleanBodyTag[0] == '✨';
    assert L.CleanBodyTag[0] == '✨' && L.HealthyEngineTag[0] == '⚙';
    if |t| > 0 && t[0] != '⚠' {
      NotPrefixAt(front, t, 0);
      NotPrefixAt(rear, t, 0);
    }
  }

  lemma StructuredTagsAreNotGuesses(general: string, front: string, rear: string)
    ensures L.GuessedDamagedChassisTag !in StructuredChassis(general, front, rear).tags
  {
    DamagedGuessStandsApart();
    assert IsPrefix(L.ChassisWarningPrefix, L.ChassisWarningPrefix + general);
    assert IsPrefix(L.FrontWarningPrefix, L.FrontWarningPrefix + front);
    assert IsPrefix(L.RearWarningPrefix, L.RearWarningPrefix + rear);
  }

  /** Chassis rows, when present, are trusted over the description: the text
      guess of a damaged chassis is never made. */
  lemma RowsOverrideText(d: AdDetail)
    requires HasChassisRow(ScoreRows(d))
    ensures L.GuessedDamagedChassisTag !in Analyze(d).tags
  {
    var reading := ReadRows(ScoreRows(d));
    StructuredTagsAreNotGuesses(reading.general, reading.front, reading.rear);
    DamagedGuessStandsApart();
    forall t | t in Analyze(d).tags
      ensures t != L.GuessedDamagedChassisTag
    {
      TagsByOrigin(d, t);
    }
  }

  /** Without chassis rows, a description that mentions chassis damage is
      read as damage even if it also claims a sealed chassis. */
  lemma DamageMentionWins(d: AdDetail)
    requires !HasChassisRow(ScoreRows(d)) && AnyMatches(NormalizedDescription(d), L.DamagedChassisText)
    ensures Analyze(d).chassis == L.GuessedDamagedChassis
    ensures L.GuessedDamagedChassisTag in Analyze(d).tags && L.SealedChassisTag !in Analyze(d).tags
  {
    assert ChassisOf(d) == Finding(L.GuessedDamagedChassis, [L.GuessedDamagedChassisTag]);
    SealedTagsStandApart();
    forall t | t in Analyze(d).tags
      ensures t != L.SealedChassisTag
    {
      TagsByOrigin(d, t);
    }
  }

  /** Every body row pushes its tag. */
  lemma {:induction false} BodyTagPushed(rows: seq<Widget>, i: nat)
    requires AllScoreRows(rows) && i < |rows| && rows[i].title == L.BodyTitle
    ensures BodyTag(rows[i].score) in RowTags(rows)
    decreases |rows|
  {
    if i < |rows| - 1 {
      BodyTagPushed(rows[..|rows| - 1], i);
    }
  }

  /** A body row decides the body: its last score is the body, and nothing is
      guessed from the description. */
  lemma BodyRowWins(d: AdDetail, b: string)
    requires LastScore(ScoreRows(d), L.BodyTitle) == Some(b)
    ensures Analyze(d).body == b && BodyTag(b) in Analyze(d).tags
    ensures L.GuessedPaintedBodyTag !in Analyze(d).tags && L.GuessedCleanBodyTag !in Analyze(d).tags
  {
    var rows := ScoreRows(d);
    LastScoreIsLast(rows, L.BodyTitle);
    var i :| 0 <= i < |rows| && rows[i].title == L.BodyTitle && rows[i].score == b
             && forall j :: i < j < |rows| ==> rows[j].title != L.BodyTitle;
    BodyTagPushed(rows, i);
    assert BodyOf(d).tags == [];
    ChassisOfTags(d);
    BodyGuessesStandApart();
    forall t | t in Analyze(d).tags
      ensures t != L.GuessedPaintedBodyTag && t != L.GuessedCleanBodyTag
    {
      TagsByOrigin(d, t);
    }
  }

  /** Without a body row, a description mentioning paint or a crash is read
      as painted even if it also claims the body is clean. */
  lemma PaintMentionWins(d: AdDetail)
    requires LastScore(ScoreRows(d), L.BodyTitle).None? && AnyMatches(NormalizedDescription(d), L.PaintedBodyText)
    ensures Analyze(d).body == L.GuessedPaintedBody
    ensures L.GuessedPaintedBodyTag in Analyze(d).tags && L.GuessedCleanBodyTag !in Analyze(d).tags
  {
    assert BodyOf(d) == Finding(L.GuessedPaintedBody, [L.GuessedPaintedBodyTag]);
    ChassisOfTags(d);
    BodyGuessesStandApart();
    forall t | t in Analyze(d).tags
      ensures t != L.GuessedCleanBodyTag
    {
      TagsByOrigin(d, t);
    }
  }

  /** The engine is the last engine row's score, or unknown without one. */
  lemma EngineIsLastEngineRow(d: AdDetail)
    ensures var rows := ScoreRows(d);
            (forall i :: 0 <= i < |rows| ==> rows[i].title != L.EngineTitle) ==> Analyze(d).engine == L.Unknown
    ensures var rows := ScoreRows(d);
            forall i :: 0 <= i < |rows| && rows[i].title == L.EngineTitle
                        && (forall j :: i < j < |rows| ==> rows[j].title != L.EngineTitle)
                        ==> Analyze(d).engine == rows[i].score
  {
    var rows := ScoreRows(d);
    assert Analyze(d).engine == OrElse(LastScore(rows, L.EngineTitle), L.Unknown);
    ScoreOfLast(rows, L.EngineTitle);
  }

  /** The score read for a title is that of its last row, or unknown. */
  lemma ScoreOfLast(rows: seq<Widget>, title: string)
    requires AllScoreRows(rows)
    ensures (forall i :: 0 <= i < |rows| ==> rows[i].title != title) ==> OrElse(LastScore(rows, title), L.Unknown) == L.Unknown
    ensures forall i :: 0 <= i < |rows| && rows[i].title == title && (forall j :: i < j < |rows| ==> rows[j].title != title)
                        ==> OrElse(LastScore(rows, title), L.Unknown) == rows[i].score
  {
    LastScoreIsLast(rows, title);
  }

  /** With no score rows and a description that matches no pattern, only the
      seller is known. */
  lemma NothingKnown(d: AdDetail)
    requires ScoreRows(d) == []
    requires !AnyMatches(NormalizedDescription(d), L.DamagedChassisText)
    requires !AnyMatches(NormalizedDescription(d), L.SealedChassisText)
    requires !AnyMatches(NormalizedDescription(d), L.PaintedBodyText)
    requires !AnyMatches(NormalizedDescription(d), L.CleanBodyText)
    ensures Analyze(d) == CarCondition([SellerTag(d)], L.Unknown, L.Unknown, L.Unknown)
  {
    assert RowTags([]) == [];
  }
}
