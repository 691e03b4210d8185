/**
 * One day's programme entries turned into programme records: the per-field rules of
 * `LG.__epgs_of_day` and, as a specification, the list it builds.
 */
module Programme {
  import opened Wrappers
  import opened Text
  import opened Stamp
  import opened Payload
  import opened Tables

  /**
   * The fields `__epgs_of_day` sets on an `EPGProgram`. No end time: this source never has one.
   * `categories` is the list the record carries; `extras` is unset when `None`.
   */
  datatype Programme = Programme(
    channelId: string,
    title: string,
    desc: Option<string>,
    stime: DateTime,
    rating: int,
    extras: Option<string>,
    categories: seq<string>)

  const UNTITLED: string := "제목 없음"
  const SUBTITLE_TAG: string := "자막"
  const AUDIO_DESCRIPTION_TAG: string := "화면해설"
  const SIGN_LANGUAGE_TAG: string := "수화"

  /** The title: the raw title with surrounding whitespace cut off, or 제목 없음 when that leaves nothing (or the key is absent). */
  function Title(raw: Option<string>): (r: string)
    ensures r != "" && Unpadded(r)
    ensures AllSpace(raw.GetOrElse("")) ==> r == UNTITLED
    ensures !AllSpace(raw.GetOrElse("")) ==> IsStripOf(raw.GetOrElse(""), r)
  {
    var t := Strip(raw.GetOrElse(""));
    if t == "" then UNTITLED else t
  }

  /** The description: the raw description with surrounding whitespace cut off, and absent when that leaves nothing. */
  function Description(raw: Option<string>): (r: Option<string>)
    ensures r.None? <==> AllSpace(raw.GetOrElse(""))
    ensures r.Some? ==> r.value != "" && IsStripOf(raw.GetOrElse(""), r.value)
  {
    var t := Strip(raw.GetOrElse(""));
    if t == "" then None else Some(t)
  }

  /** The extras parts in their fixed order: resolution label, subtitles, audio description, sign language. */
  function ExtrasParts(rsolNm: Option<string>, subtYn: Option<string>, explYn: Option<string>, silaYn: Option<string>): (r: seq<string>)
    ensures forall k :: 0 <= k < |r| ==> r[k] != ""
  {
    (if Truthy(rsolNm) then [rsolNm.value] else []) + Tags(subtYn, explYn, silaYn)
  }

  /** The accessibility tags that apply, in their fixed order: subtitles, audio description, sign language. */
  function Tags(subtYn: Option<string>, explYn: Option<string>, silaYn: Option<string>): (r: seq<string>)
    ensures forall k :: 0 <= k < |r| ==> r[k] != "" && NoSpace(r[k])
  {
    (if subtYn == Some("Y") then [SUBTITLE_TAG] else [])
    + (if explYn == Some("Y") then [AUDIO_DESCRIPTION_TAG] else [])
    + (if silaYn == Some("Y") then [SIGN_LANGUAGE_TAG] else [])
  }

  /** The extras parts joined by single spaces when some part applies, and unset otherwise. */
  function Extras(rsolNm: Option<string>, subtYn: Option<string>, explYn: Option<string>, silaYn: Option<string>): (r: Option<string>)
    ensures r.None? <==> !Truthy(rsolNm) && subtYn != Some("Y") && explYn != Some("Y") && silaYn != Some("Y")
    ensures r.Some? ==> r.value != ""
  {
    var parts := ExtrasParts(rsolNm, subtYn, explYn, silaYn);
    if parts == [] then None else Some(JoinSpace(parts))
  }

  /**
   * The extras string splits back into the pieces of the resolution label, when it is
   * non-empty, followed by the tags that applied in their fixed order, each tag present
   * only for a flag of `"Y"`.
   */
  lemma ExtrasDecode(rsolNm: Option<string>, subtYn: Option<string>, explYn: Option<string>, silaYn: Option<string>)
    requires Extras(rsolNm, subtYn, explYn, silaYn).Some?
    ensures SplitSpace(Extras(rsolNm, subtYn, explYn, silaYn).value)
      == (if Truthy(rsolNm) then SplitSpace(rsolNm.value) else []) + Tags(subtYn, explYn, silaYn)
  {
    var parts := ExtrasParts(rsolNm, subtYn, explYn, silaYn);
    var tags := Tags(subtYn, explYn, silaYn);
    assert Extras(rsolNm, subtYn, explYn, silaYn).value == JoinSpace(parts);
    if Truthy(rsolNm) {
      assert parts == [rsolNm.value] + tags;
      LabelledDecode(rsolNm.value, tags);
    } else {
      assert parts == tags;
      SplitJoinSpace(tags);
    }
  }

  lemma LabelledDecode(resolution: string, tags: seq<string>)
    requires forall k :: 0 <= k < |tags| ==> NoSpace(tags[k])
    ensures SplitSpace(JoinSpace([resolution] + tags)) == SplitSpace(resolution) + tags
  {
    var parts := [resolution] + tags;
    assert parts[0] == resolution && parts[1..] == tags;
    SplitJoinSpaceHead(parts);
  }

  /** A label without a space comes back as one piece. */
  lemma ExtrasDecodeSpaceFree(rsolNm: Option<string>, subtYn: Option<string>, explYn: Option<string>, silaYn: Option<string>)
    requires rsolNm.None? || NoSpace(rsolNm.value)
    requires Extras(rsolNm, subtYn, explYn, silaYn).Some?
    ensures SplitSpace(Extras(rsolNm, subtYn, explYn, silaYn).value)
      == (if Truthy(rsolNm) then [rsolNm.value] else []) + Tags(subtYn, explYn, silaYn)
  {
    ExtrasDecode(rsolNm, subtYn, explYn, silaYn);
    if Truthy(rsolNm) {
      SplitSpaceWord(rsolNm.value);
    }
  }

  /** Resolution, subtitles and sign language, with audio description off. */
  lemma ExtrasExample()
    ensures Extras(Some("1080p"), Some("Y"), Some("N"), Some("Y")) == Some("1080p 자막 수화")
  {
    var parts := ["1080p", SUBTITLE_TAG, SIGN_LANGUAGE_TAG];
    assert ExtrasParts(Some("1080p"), Some("Y"), Some("N"), Some("Y")) == parts;
    assert parts[..2] == ["1080p", SUBTITLE_TAG] && parts[..2][..1] == ["1080p"];
    assert JoinSpace(parts[..2]) == "1080p" + " " + SUBTITLE_TAG;
    assert JoinSpace(parts) == "1080p" + " " + SUBTITLE_TAG + " " + SIGN_LANGUAGE_TAG;
    assert "1080p" + " " + SUBTITLE_TAG + " " + SIGN_LANGUAGE_TAG == "1080p 자막 수화";
  }

  /** The entries `__epgs_of_day` keeps: records with a date and a start time whose concatenation parses. */
  predicate Accepted(p: ProgItem) {
    && p.ProgRecord?
    && Truthy(p.brdDt) && Truthy(p.strtTme)
    && ParseStamp(p.brdDt.value + p.strtTme.value).Some?
  }

  /** One pass of the loop body of `__epgs_of_day`: the record built from `p`, or `None` where it `continue`s. */
  function Normalize(xmltvId: string, p: ProgItem): (r: Option<Programme>)
    ensures r.Some? <==> Accepted(p)
    ensures r.Some? ==>
      && r.value.channelId == xmltvId && r.value.title != ""
      && ParseStamp(p.brdDt.value + p.strtTme.value) == Some(r.value.stime)
  {
    match p
    case ProgNonRecord => None
    case ProgRecord(titNm, dscr, brdDt, strtTme, ageGrdCd, rsolNm, subtYn, explYn, silaYn, schdGnreCd) =>
      if !(Truthy(brdDt) && Truthy(strtTme)) then None
      else
        match ParseStamp(brdDt.value + strtTme.value)
        case None => None
        case Some(stime) =>
          Some(Programme(xmltvId, Title(titNm), Description(dscr), stime, Rating(ageGrdCd),
                         Extras(rsolNm, subtYn, explYn, silaYn), Categories(schdGnreCd)))
  }

  /**
   * What every record carries: its fields computed by the field rules, a non-empty title,
   * a description that is absent or non-empty, a rating of the table, one category.
   */
  lemma NormalizeFields(xmltvId: string, p: ProgItem)
    requires Accepted(p)
    ensures var e := Normalize(xmltvId, p).value;
      && e.title == Title(p.titNm) && e.title != ""
      && e.desc == Description(p.dscr) && (e.desc.None? || e.desc.value != "")
      && e.rating == Rating(p.ageGrdCd) && e.rating in {0, 7, 12, 15, 19}
      && e.extras == Extras(p.rsolNm, p.subtYn, p.explYn, p.silaYn)
      && e.categories == Categories(p.schdGnreCd) && |e.categories| == 1
  {
  }

  /** The list `__epgs_of_day` returns for `raws`: every entry normalised in turn, the skipped ones left out. */
  function ProgramsOfDay(xmltvId: string, raws: seq<ProgItem>): (r: seq<Programme>)
    ensures |r| <= |raws|
  {
    if raws == [] then []
    else
      var last := Normalize(xmltvId, raws[|raws| - 1]);
      ProgramsOfDay(xmltvId, raws[..|raws| - 1]) + (if last.Some? then [last.value] else [])
  }

  /** The accepted entries of `raws`, in their order. */
  function AcceptedEntries(raws: seq<ProgItem>): (r: seq<ProgItem>)
    ensures forall k :: 0 <= k < |r| ==> Accepted(r[k]) && r[k] in raws
  {
    if raws == [] then []
    else
      var init := AcceptedEntries(raws[..|raws| - 1]);
      assert forall k :: 0 <= k < |init| ==> init[k] in raws by {
        assert forall q :: q in raws[..|raws| - 1] ==> q in raws;
      }
      init + (if Accepted(raws[|raws| - 1]) then [raws[|raws| - 1]] else [])
  }

  /**
   * Records and accepted entries correspond one to one and in order: the day's list holds
   * exactly one record per accepted entry, built from that entry.
   */
  lemma {:induction false} ProgramsOfDayIsFilterMap(xmltvId: string, raws: seq<ProgItem>)
    ensures |ProgramsOfDay(xmltvId, raws)| == |AcceptedEntries(raws)|
    ensures forall k :: 0 <= k < |AcceptedEntries(raws)| ==>
      Normalize(xmltvId, AcceptedEntries(raws)[k]) == Some(ProgramsOfDay(xmltvId, raws)[k])
    decreases |raws|
  {
    if raws != [] {
      var init := raws[..|raws| - 1];
      var last := raws[|raws| - 1];
      ProgramsOfDayIsFilterMap(xmltvId, init);
      if Accepted(last) {
        assert ProgramsOfDay(xmltvId, raws) == ProgramsOfDay(xmltvId, init) + [Normalize(xmltvId, last).value];
        assert AcceptedEntries(raws) == AcceptedEntries(init) + [last];
      } else {
        assert ProgramsOfDay(xmltvId, raws) == ProgramsOfDay(xmltvId, init);
        assert AcceptedEntries(raws) == AcceptedEntries(init);
      }
    }
  }

  /** Every record of the day's list belongs to the channel asked for and has a title. */
  lemma {:induction false} ProgramsOfDayRecords(xmltvId: string, raws: seq<ProgItem>)
    ensures forall k :: 0 <= k < |ProgramsOfDay(xmltvId, raws)| ==>
      ProgramsOfDay(xmltvId, raws)[k].channelId == xmltvId && ProgramsOfDay(xmltvId, raws)[k].title != ""
    decreases |raws|
  {
    if raws != [] {
      var init := raws[..|raws| - 1];
      var last := Normalize(xmltvId, raws[|raws| - 1]);
      ProgramsOfDayRecords(xmltvId, init);
      assert ProgramsOfDay(xmltvId, raws) == ProgramsOfDay(xmltvId, init) + (if last.Some? then [last.value] else []);
    }
  }

  /** The day's list of a concatenation is the concatenation of the day's lists: order is kept. */
  lemma {:induction false} ProgramsOfDayAppend(xmltvId: string, a: seq<ProgItem>, b: seq<ProgItem>)
    ensures ProgramsOfDay(xmltvId, a + b) == ProgramsOfDay(xmltvId, a) + ProgramsOfDay(xmltvId, b)
    decreases |b|
  {
    if b == [] {
      assert a + b == a;
    } else {
      var b' := b[..|b| - 1];
      assert (a + b)[..|a + b| - 1] == a + b';
      assert (a + b)[|a + b| - 1] == b[|b| - 1];
      ProgramsOfDayAppend(xmltvId, a, b');
    }
  }

  /** When every entry is accepted, the filter keeps them all. */
  lemma {:induction false} AllAccepted(raws: seq<ProgItem>)
    requires forall k :: 0 <= k < |raws| ==> Accepted(raws[k])
    ensures AcceptedEntries(raws) == raws
    decreases |raws|
  {
    if raws != [] {
      AllAccepted(raws[..|raws| - 1]);
    }
  }

  /** One malformed entry among valid ones costs exactly one record, not the day. */
  lemma OneMalformedEntry(xmltvId: string, before: seq<ProgItem>, bad: ProgItem, after: seq<ProgItem>)
    requires forall k :: 0 <= k < |before| ==> Accepted(before[k])
    requires forall k :: 0 <= k < |after| ==> Accepted(after[k])
    requires !Accepted(bad)
    ensures |ProgramsOfDay(xmltvId, before + [bad] + after)| == |before| + |after|
  {
    ProgramsOfDayAppend(xmltvId, before + [bad], after);
    ProgramsOfDayAppend(xmltvId, before, [bad]);
    assert ProgramsOfDay(xmltvId, [bad]) == [] by {
      assert [bad][..0] == [];
    }
    ProgramsOfDayIsFilterMap(xmltvId, before);
    ProgramsOfDayIsFilterMap(xmltvId, after);
    AllAccepted(before);
    AllAccepted(after);
  }
}
