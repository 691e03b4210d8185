/**
 * The LG U+ provider object: the genre table it builds once, the channel listing, the
 * per-day programme conversion and the channel-by-day collection loop. The two HTTP
 * fetches are oracle arguments; the day strings are an argument.
 */
module Lg {
  import opened Wrappers
  import opened Payload
  import opened Stamp
  import opened Tables
  import opened Programme

  // ── Genre table ─────────────────────────────────────────────

  /** A genre record that `_initialize_channel_genre_map` stores: both code and name non-empty. */
  predicate IsGenreEntry(g: GenreItem) {
    g.GenreRecord? && Truthy(g.gnreCd) && Truthy(g.gnreNm)
  }

  /** `m` after the loop of `_initialize_channel_genre_map` over `raws`: later records win. */
  function AddGenres(m: map<string, string>, raws: seq<GenreItem>): (r: map<string, string>)
    ensures m.Keys <= r.Keys
  {
    if raws == [] then m
    else
      var m' := AddGenres(m, raws[..|raws| - 1]);
      var g := raws[|raws| - 1];
      if IsGenreEntry(g) then m'[g.gnreCd.value := g.gnreNm.value] else m'
  }

  /**
   * The table only grows; it gains every stored record's code; and every entry it holds
   * is either an old one left as it was or a stored record with non-empty code and name.
   */
  lemma {:induction false} AddGenresEntries(m: map<string, string>, raws: seq<GenreItem>)
    ensures m.Keys <= AddGenres(m, raws).Keys
    ensures forall k :: 0 <= k < |raws| && IsGenreEntry(raws[k]) ==> raws[k].gnreCd.value in AddGenres(m, raws)
    ensures forall c :: c in AddGenres(m, raws) ==>
      || (c in m && AddGenres(m, raws)[c] == m[c])
      || (c != "" && AddGenres(m, raws)[c] != "" && GenreRecord(Some(c), Some(AddGenres(m, raws)[c])) in raws)
    decreases |raws|
  {
    if raws != [] {
      var init := raws[..|raws| - 1];
      AddGenresEntries(m, init);
      assert forall g :: g in init ==> g in raws;
      assert forall k :: 0 <= k < |init| ==> init[k] == raws[k];
    }
  }

  /** The codes of the genre entries among `raws`. */
  function GenreCodes(raws: seq<GenreItem>): set<string> {
    set k | 0 <= k < |raws| && IsGenreEntry(raws[k]) :: raws[k].gnreCd.value
  }

  /** Entry `k` of `raws` is a genre entry and no later genre entry carries its code. */
  predicate IsLastOfCode(raws: seq<GenreItem>, k: int)
    requires 0 <= k < |raws|
  {
    && IsGenreEntry(raws[k])
    && forall k' :: k < k' < |raws| && IsGenreEntry(raws[k']) ==> raws[k'].gnreCd != raws[k].gnreCd
  }

  /**
   * Which name each code ends up with: a code stored by a record maps to the name of the
   * last record that carries it, and an old code that no record carries keeps its old name.
   */
  lemma {:induction false} AddGenresLastWins(m: map<string, string>, raws: seq<GenreItem>)
    ensures forall k :: 0 <= k < |raws| && IsLastOfCode(raws, k) ==>
      raws[k].gnreCd.value in AddGenres(m, raws) && AddGenres(m, raws)[raws[k].gnreCd.value] == raws[k].gnreNm.value
    ensures forall c :: c in m && c !in GenreCodes(raws) ==> c in AddGenres(m, raws) && AddGenres(m, raws)[c] == m[c]
    decreases |raws|
  {
    if raws != [] {
      var init := raws[..|raws| - 1];
      var g := raws[|raws| - 1];
      AddGenresLastWins(m, init);
      forall k | 0 <= k < |raws| && IsLastOfCode(raws, k)
        ensures raws[k].gnreCd.value in AddGenres(m, raws) && AddGenres(m, raws)[raws[k].gnreCd.value] == raws[k].gnreNm.value
      {
        if k < |raws| - 1 {
          assert init[k] == raws[k];
          assert IsLastOfCode(init, k) by {
            forall k' | k < k' < |init| && IsGenreEntry(init[k'])
              ensures init[k'].gnreCd != init[k].gnreCd
            {
              assert init[k'] == raws[k'];
            }
          }
        }
      }
      forall c | c in m && c !in GenreCodes(raws)
        ensures c in AddGenres(m, raws) && AddGenres(m, raws)[c] == m[c]
      {
        assert forall k :: 0 <= k < |init| ==> init[k] == raws[k];
        assert c !in GenreCodes(init);
        assert IsGenreEntry(g) ==> g.gnreCd.value in GenreCodes(raws);
      }
    }
  }

  // ── Channel listing ─────────────────────────────────────────

  /** The dict `get_svc_channels` builds per channel (`ServiceId`, `Name`, `No`, `Icon_url`, `EPG`, `Category`). */
  datatype ChannelDescriptor = ChannelDescriptor(
    serviceId: string,
    name: string,
    no: string,
    iconUrl: string,
    epg: seq<Programme>,
    category: string)

  const GENRE_CODE_PREFIX: string := "장르코드:"

  /** A channel's `Category`: its genre name, a placeholder for an unknown code, or blank without a code. */
  function GenreCategory(genreMap: map<string, string>, code: string): (r: string)
    ensures code == "" ==> r == ""
    ensures code != "" && code in genreMap ==> r == genreMap[code]
    ensures code != "" && code !in genreMap ==> r == GENRE_CODE_PREFIX + code
  {
    if code != "" then (if code in genreMap then genreMap[code] else GENRE_CODE_PREFIX + code) else ""
  }

  /** The channel entries `get_svc_channels` keeps: a non-empty id and a non-empty name. */
  predicate IsListed(e: ChannelEntry) {
    Truthy(e.chnlId) && Truthy(e.chnlNm)
  }

  /** The descriptor for one entry, or `None` where the loop `continue`s. */
  function Describe(genreMap: map<string, string>, e: ChannelEntry): (r: Option<ChannelDescriptor>)
    ensures r.Some? <==> IsListed(e)
    ensures r.Some? ==>
      && r.value.serviceId == e.chnlId.value && r.value.serviceId != ""
      && r.value.name == e.chnlNm.value && r.value.name != ""
      && r.value.no == e.chnlNo.GetOrElse("")
      && r.value.iconUrl == e.bgImgUrl.GetOrElse("")
      && r.value.epg == []
      && r.value.category == GenreCategory(genreMap, e.gnreCd.GetOrElse(""))
  {
    if !IsListed(e) then None
    else
      Some(ChannelDescriptor(e.chnlId.value, e.chnlNm.value, e.chnlNo.GetOrElse(""), e.bgImgUrl.GetOrElse(""),
                             [], GenreCategory(genreMap, e.gnreCd.GetOrElse(""))))
  }

  /** The list `get_svc_channels` returns for `entries` once the genre table is `genreMap`. */
  function ChannelDescriptors(genreMap: map<string, string>, entries: seq<ChannelEntry>): (r: seq<ChannelDescriptor>)
    ensures |r| <= |entries|
    ensures forall k :: 0 <= k < |r| ==> r[k].epg == [] && r[k].serviceId != "" && r[k].name != ""
  {
    if entries == [] then []
    else
      var last := Describe(genreMap, entries[|entries| - 1]);
      ChannelDescriptors(genreMap, entries[..|entries| - 1]) + (if last.Some? then [last.value] else [])
  }

  /** The listed entries of `entries`, in their order. */
  function ListedEntries(entries: seq<ChannelEntry>): (r: seq<ChannelEntry>)
    ensures forall k :: 0 <= k < |r| ==> IsListed(r[k])
  {
    if entries == [] then []
    else
      ListedEntries(entries[..|entries| - 1])
      + (if IsListed(entries[|entries| - 1]) then [entries[|entries| - 1]] else [])
  }

  /** Exactly one descriptor per listed entry, in input order, each built from its entry. */
  lemma {:induction false} ChannelDescriptorsIsFilterMap(genreMap: map<string, string>, entries: seq<ChannelEntry>)
    ensures |ChannelDescriptors(genreMap, entries)| == |ListedEntries(entries)|
    ensures forall k :: 0 <= k < |ListedEntries(entries)| ==>
      Describe(genreMap, ListedEntries(entries)[k]) == Some(ChannelDescriptors(genreMap, entries)[k])
    decreases |entries|
  {
    if entries != [] {
      ChannelDescriptorsIsFilterMap(genreMap, entries[..|entries| - 1]);
    }
  }

  /** Two valid channels around one without a name give two descriptors, in input order. */
  lemma ChannelListingExample(genreMap: map<string, string>, a: ChannelEntry, nameless: ChannelEntry, b: ChannelEntry)
    requires IsListed(a) && IsListed(b) && nameless.chnlNm.None?
    ensures var r := ChannelDescriptors(genreMap, [a, nameless, b]);
      |r| == 2 && r[0].serviceId == a.chnlId.value && r[1].serviceId == b.chnlId.value
  {
    assert [a, nameless, b][..2] == [a, nameless];
    assert [a, nameless][..1] == [a];
    assert [a][..0] == [];
    var da := Describe(genreMap, a).value;
    assert ChannelDescriptors(genreMap, [a]) == [da];
    assert ChannelDescriptors(genreMap, [a, nameless]) == [da];
    assert ChannelDescriptors(genreMap, [a, nameless, b]) == [da, Describe(genreMap, b).value];
  }

  // ── Programme collection ────────────────────────────────────

  /** The records one (channel, day) fetch contributes: none when the fetch fails. */
  function DayRecords(svcid: string, xmltvId: string, d: nat,
                      basisDate: nat -> string, fetch: ScheduleQuery -> Option<ScheduleResponse>): seq<Programme>
  {
    match fetch(ScheduleQuery(basisDate(d), CHNL_TYPE_ALL, svcid))
    case None => []
    case Some(resp) => ProgramsOfDay(xmltvId, resp.schedule.GetOrElse([]))
  }

  /** The records of days `0 .. days-1` for one channel, in day order. */
  function ChannelRecords(svcid: string, xmltvId: string, days: nat,
                          basisDate: nat -> string, fetch: ScheduleQuery -> Option<ScheduleResponse>): seq<Programme>
  {
    if days == 0 then []
    else ChannelRecords(svcid, xmltvId, days - 1, basisDate, fetch) + DayRecords(svcid, xmltvId, days - 1, basisDate, fetch)
  }

  lemma PrefixAppend<T>(a: seq<T>, b: seq<T>, c: seq<T>)
    requires a <= b
    ensures a <= b + c
  {
    assert (b + c)[..|a|] == b[..|a|];
  }

  /** Earlier days come first: the records of the first `m` days are a prefix of those of the first `n`. */
  lemma {:induction false} ChannelRecordsDayOrder(svcid: string, xmltvId: string, m: nat, n: nat,
                               basisDate: nat -> string, fetch: ScheduleQuery -> Option<ScheduleResponse>)
    requires m <= n
    ensures ChannelRecords(svcid, xmltvId, m, basisDate, fetch) <= ChannelRecords(svcid, xmltvId, n, basisDate, fetch)
  {
    ChannelRecordsExtend(svcid, xmltvId, basisDate, fetch);
    PrefixChain((k: nat) => ChannelRecords(svcid, xmltvId, k, basisDate, fetch), m, n);
  }

  /** One more day only extends the records collected so far. */
  lemma ChannelRecordsExtend(svcid: string, xmltvId: string,
                             basisDate: nat -> string, fetch: ScheduleQuery -> Option<ScheduleResponse>)
    ensures forall d: nat :: ChannelRecords(svcid, xmltvId, d, basisDate, fetch) <= ChannelRecords(svcid, xmltvId, d + 1, basisDate, fetch)
  {
    forall d: nat
      ensures ChannelRecords(svcid, xmltvId, d, basisDate, fetch) <= ChannelRecords(svcid, xmltvId, d + 1, basisDate, fetch)
    {
      var sofar := ChannelRecords(svcid, xmltvId, d, basisDate, fetch);
      PrefixAppend(sofar, sofar, DayRecords(svcid, xmltvId, d, basisDate, fetch));
    }
  }

  /** A chain of prefixes: if every step extends the last, every later one extends every earlier one. */
  lemma {:induction false} PrefixChain<T>(f: nat -> seq<T>, m: nat, n: nat)
    requires m <= n
    requires forall k: nat :: k < n ==> f(k) <= f(k + 1)
    ensures f(m) <= f(n)
    decreases n - m
  {
    if m < n {
      PrefixChain(f, m, n - 1);
      assert f(n - 1) <= f(n);
      assert f(n)[..|f(m)|] == f(n - 1)[..|f(m)|];
    }
  }

  /** A day whose fetch fails adds nothing to the records collected before it. */
  lemma ChannelRecordsFailedDay(svcid: string, xmltvId: string, d: nat,
                                basisDate: nat -> string, fetch: ScheduleQuery -> Option<ScheduleResponse>)
    requires fetch(ScheduleQuery(basisDate(d), CHNL_TYPE_ALL, svcid)).None?
    ensures ChannelRecords(svcid, xmltvId, d + 1, basisDate, fetch) == ChannelRecords(svcid, xmltvId, d, basisDate, fetch)
  {
    assert DayRecords(svcid, xmltvId, d, basisDate, fetch) == [];
  }

  /** A day whose fetch succeeds adds that day's list, converted from its schedule, after the records before it. */
  lemma ChannelRecordsFetchedDay(svcid: string, xmltvId: string, d: nat,
                                 basisDate: nat -> string, fetch: ScheduleQuery -> Option<ScheduleResponse>)
    requires fetch(ScheduleQuery(basisDate(d), CHNL_TYPE_ALL, svcid)).Some?
    ensures ChannelRecords(svcid, xmltvId, d + 1, basisDate, fetch)
      == ChannelRecords(svcid, xmltvId, d, basisDate, fetch)
         + ProgramsOfDay(xmltvId, fetch(ScheduleQuery(basisDate(d), CHNL_TYPE_ALL, svcid)).value.schedule.GetOrElse([]))
  {
  }

  /** If every fetch fails, no record is collected. */
  lemma {:induction false} ChannelRecordsAllFailed(svcid: string, xmltvId: string, days: nat,
                                                  basisDate: nat -> string, fetch: ScheduleQuery -> Option<ScheduleResponse>)
    requires forall d: nat :: d < days ==> fetch(ScheduleQuery(basisDate(d), CHNL_TYPE_ALL, svcid)).None?
    ensures ChannelRecords(svcid, xmltvId, days, basisDate, fetch) == []
    decreases days
  {
    if days > 0 {
      ChannelRecordsAllFailed(svcid, xmltvId, days - 1, basisDate, fetch);
      ChannelRecordsFailedDay(svcid, xmltvId, days - 1, basisDate, fetch);
    }
  }

  /** How many days the day loop visits: the limit itself, and none for a limit below one. */
  function DayCount(fetchLimit: int): (r: nat)
    ensures fetchLimit >= 0 ==> r == fetchLimit
    ensures fetchLimit < 0 ==> r == 0
  {
    if fetchLimit < 0 then 0 else fetchLimit
  }

  function Repeat<T>(s: seq<T>, k: nat): seq<T> {
    if k == 0 then [] else Repeat(s, k - 1) + s
  }

  /** The host's channel object: upstream service id, output id, name and the programme list. */
  class Channel {
    const svcid: string
    const id: string
    const name: string
    var programs: seq<Programme>

    constructor (svcid: string, id: string, name: string)
      ensures this.svcid == svcid && this.id == id && this.name == name && programs == []
    {
      this.svcid, this.id, this.name := svcid, id, name;
      programs := [];
    }
  }

  lemma AppendAssociative<T>(a: seq<T>, b: seq<T>, c: seq<T>)
    ensures (a + b) + c == a + (b + c)
  {
  }

  /** How many times `c` stands in `cs`. */
  function Occurrences(cs: seq<Channel>, c: Channel): nat {
    if cs == [] then 0
    else Occurrences(cs[..|cs| - 1], c) + (if cs[|cs| - 1] == c then 1 else 0)
  }

  /** In a list without repeats, every member stands once. */
  lemma {:induction false} OccurrencesDistinct(cs: seq<Channel>, c: Channel)
    requires forall i, j :: 0 <= i < j < |cs| ==> cs[i] != cs[j]
    requires c in cs
    ensures Occurrences(cs, c) == 1
    decreases |cs|
  {
    var init := cs[..|cs| - 1];
    if cs[|cs| - 1] == c {
      OccurrencesAbsent(init, c);
    } else {
      assert c in init;
      OccurrencesDistinct(init, c);
    }
  }

  lemma {:induction false} OccurrencesAbsent(cs: seq<Channel>, c: Channel)
    requires c !in cs
    ensures Occurrences(cs, c) == 0
    decreases |cs|
  {
    if cs != [] {
      assert cs[..|cs| - 1][0..] <= cs;
      OccurrencesAbsent(cs[..|cs| - 1], c);
    }
  }

  /** The provider object. */
  class LG {
    var channelGenreMap: map<string, string>
    var genreMapInitialized: bool
    /** The channels the host asks for (`req_channels`). */
    var reqChannels: seq<Channel>
    /** `cfg["FETCH_LIMIT"]`, when the configuration sets it. */
    const fetchLimitSetting: Option<int>

    constructor (fetchLimitSetting: Option<int>, reqChannels: seq<Channel>)
      ensures channelGenreMap == map[] && !genreMapInitialized
      ensures this.fetchLimitSetting == fetchLimitSetting && this.reqChannels == reqChannels
    {
      this.fetchLimitSetting := fetchLimitSetting;
      this.reqChannels := reqChannels;
      channelGenreMap := map[];
      genreMapInitialized := false;
    }

    /** The configured number of days to fetch, two when none is configured. */
    function FetchLimit(): (r: int)
      ensures fetchLimitSetting.None? ==> r == 2
      ensures fetchLimitSetting.Some? ==> r == fetchLimitSetting.value
    {
      fetchLimitSetting.GetOrElse(2)
    }

    /** `_initialize_channel_genre_map`: store each good genre record and mark the table built, if the field is a list. */
    method InitializeChannelGenreMap(data: ChannelResponse)
      modifies this`channelGenreMap, this`genreMapInitialized
      ensures data.genres.None? ==>
        channelGenreMap == old(channelGenreMap) && genreMapInitialized == old(genreMapInitialized)
      ensures data.genres.Some? ==>
        channelGenreMap == AddGenres(old(channelGenreMap), data.genres.value) && genreMapInitialized
    {
      if data.genres.None? {
        return;
      }
      var raw := data.genres.value;
      var i := 0;
      while i < |raw|
        invariant 0 <= i <= |raw|
        invariant channelGenreMap == AddGenres(old(channelGenreMap), raw[..i])
      {
        var g := raw[i];
        if g.GenreRecord? {
          var cd, nm := g.gnreCd, g.gnreNm;
          if Truthy(cd) && Truthy(nm) {
            channelGenreMap := channelGenreMap[cd.value := nm.value];
          }
        }
        assert raw[..i + 1][..i] == raw[..i];
        i := i + 1;
      }
      assert raw[..|raw|] == raw;
      genreMapInitialized := true;
    }

    /** `get_svc_channels`, with today's `BAS_DT` and the channel-list fetch given. */
    method GetSvcChannels(today: string, fetch: ChannelQuery -> Option<ChannelResponse>)
      returns (svcChannels: seq<ChannelDescriptor>)
      modifies this`channelGenreMap, this`genreMapInitialized
      ensures fetch(ChannelQuery(today, CHNL_TYPE_ALL)).None? ==>
        && svcChannels == []
        && channelGenreMap == old(channelGenreMap) && genreMapInitialized == old(genreMapInitialized)
      ensures old(genreMapInitialized) ==>
        channelGenreMap == old(channelGenreMap) && genreMapInitialized
      ensures var resp := fetch(ChannelQuery(today, CHNL_TYPE_ALL));
        resp.Some? && !old(genreMapInitialized) ==>
          if resp.value.genres.Some? then
            channelGenreMap == AddGenres(old(channelGenreMap), resp.value.genres.value) && genreMapInitialized
          else
            channelGenreMap == old(channelGenreMap) && !genreMapInitialized
      ensures var resp := fetch(ChannelQuery(today, CHNL_TYPE_ALL));
        resp.Some? ==> svcChannels == ChannelDescriptors(channelGenreMap, resp.value.channels.GetOrElse([]))
    {
      var data := fetch(ChannelQuery(today, CHNL_TYPE_ALL));
      svcChannels := [];
      if data.None? {
        return;
      }
      if !genreMapInitialized {
        InitializeChannelGenreMap(data.value);
      }
      var entries := data.value.channels.GetOrElse([]);
      var i := 0;
      while i < |entries|
        invariant 0 <= i <= |entries|
        invariant svcChannels == ChannelDescriptors(channelGenreMap, entries[..i])
      {
        var ch := entries[i];
        assert entries[..i + 1][..i] == entries[..i];
        i := i + 1;
        var sid, name := ch.chnlId, ch.chnlNm;
        if !Truthy(sid) || !Truthy(name) {
          continue;
        }
        var gCd := ch.gnreCd.GetOrElse("");
        var category := if gCd != "" then
            (if gCd in channelGenreMap then channelGenreMap[gCd] else GENRE_CODE_PREFIX + gCd)
          else "";
        var obj := ChannelDescriptor(sid.value, name.value, ch.chnlNo.GetOrElse(""), ch.bgImgUrl.GetOrElse(""), [], category);
        svcChannels := svcChannels + [obj];
      }
      assert entries[..|entries|] == entries;
    }

    /** `__epgs_of_day`: convert one day's raw list, skipping what cannot become a record. */
    method EpgsOfDay(xmltvId: string, rawList: seq<ProgItem>) returns (epgs: seq<Programme>)
      ensures epgs == ProgramsOfDay(xmltvId, rawList)
    {
      epgs := [];
      var i := 0;
      while i < |rawList|
        invariant 0 <= i <= |rawList|
        invariant epgs == ProgramsOfDay(xmltvId, rawList[..i])
      {
        var p := rawList[i];
        assert rawList[..i + 1][..i] == rawList[..i];
        i := i + 1;
        if p.ProgNonRecord? {
          continue;
        }
        var title := Title(p.titNm);
        var desc := Description(p.dscr);
        var dt, st := p.brdDt, p.strtTme;
        if !(Truthy(dt) && Truthy(st)) {
          continue;
        }
        var stime := ParseStamp(dt.value + st.value);
        if stime.None? {
          continue;
        }
        var rating := Rating(p.ageGrdCd);
        var extras := Extras(p.rsolNm, p.subtYn, p.explYn, p.silaYn);
        var categories := Categories(p.schdGnreCd);
        epgs := epgs + [Programme(xmltvId, title, desc, stime.value, rating, extras, categories)];
      }
      assert rawList[..|rawList|] == rawList;
    }

    /** The inner loop of `get_programs`: days `0 .. fetchLimit-1` of one channel, appended in day order. */
    method CollectChannel(ch: Channel, fetchLimit: int,
                          basisDate: nat -> string, fetch: ScheduleQuery -> Option<ScheduleResponse>)
      modifies ch
      ensures ch.programs == old(ch.programs) + ChannelRecords(ch.svcid, ch.id, DayCount(fetchLimit), basisDate, fetch)
    {
      var d := 0;
      while d < fetchLimit
        invariant 0 <= d <= DayCount(fetchLimit)
        invariant ch.programs == old(ch.programs) + ChannelRecords(ch.svcid, ch.id, d, basisDate, fetch)
      {
        var data := fetch(ScheduleQuery(basisDate(d), CHNL_TYPE_ALL, ch.svcid));
        if data.None? {
          ChannelRecordsFailedDay(ch.svcid, ch.id, d, basisDate, fetch);
          d := d + 1;
          continue;
        }
        var epgList := data.value.schedule.GetOrElse([]);
        var epgs := EpgsOfDay(ch.id, epgList);
        ChannelRecordsFetchedDay(ch.svcid, ch.id, d, basisDate, fetch);
        AppendAssociative(old(ch.programs), ChannelRecords(ch.svcid, ch.id, d, basisDate, fetch), epgs);
        ch.programs := ch.programs + epgs;
        d := d + 1;
      }
    }

    /** `get_programs`: for each requested channel and each day, append that day's records to the channel. */
    method GetPrograms(basisDate: nat -> string, fetch: ScheduleQuery -> Option<ScheduleResponse>)
      modifies set c | c in reqChannels
      ensures forall c :: c in reqChannels ==>
        c.programs == old(c.programs)
          + Repeat(ChannelRecords(c.svcid, c.id, DayCount(FetchLimit()), basisDate, fetch), Occurrences(reqChannels, c))
      ensures forall c :: c in reqChannels ==> old(c.programs) <= c.programs
    {
      if reqChannels == [] {
        return;
      }
      var fetchLimit := FetchLimit();
      var i := 0;
      while i < |reqChannels|
        invariant 0 <= i <= |reqChannels|
        invariant forall c :: c in reqChannels ==>
          c.programs == old(c.programs)
            + Repeat(ChannelRecords(c.svcid, c.id, DayCount(fetchLimit), basisDate, fetch), Occurrences(reqChannels[..i], c))
      {
        var ch := reqChannels[i];
        CollectChannel(ch, fetchLimit, basisDate, fetch);
        ghost var done := reqChannels[..i + 1];
        assert done[..i] == reqChannels[..i] && done[i] == ch;
        forall c | c in reqChannels
          ensures c.programs == old(c.programs)
            + Repeat(ChannelRecords(c.svcid, c.id, DayCount(fetchLimit), basisDate, fetch), Occurrences(done, c))
        {
          if c == ch {
            var recs := ChannelRecords(c.svcid, c.id, DayCount(fetchLimit), basisDate, fetch);
            var k := Occurrences(reqChannels[..i], c);
            assert Occurrences(done, c) == k + 1;
            assert Repeat(recs, k + 1) == Repeat(recs, k) + recs;
            AppendAssociative(old(c.programs), Repeat(recs, k), recs);
          } else {
            assert Occurrences(done, c) == Occurrences(reqChannels[..i], c);
          }
        }
        i := i + 1;
      }
      assert reqChannels[..|reqChannels|] == reqChannels;
      forall c | c in reqChannels
        ensures old(c.programs) <= c.programs
      {
      }
    }
  }
}
