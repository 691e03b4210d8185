# LG U+ EPG provider — a verified Dafny model

This project models the LG U+ provider of epg2xml (`epg2xml/providers/lg.py`). The provider
reads two JSON payloads from the broadcaster's channel-guide API. From the first it builds a
genre table and a list of channel descriptors. From the second, fetched once per channel
and day, it builds programme records and appends them to the host's channel objects.

The model follows the source file piece by piece:

- `wrappers.dfy` (`Wrappers`): `Option`, used for absent JSON keys and failed fetches.
- `payload.dfy` (`Payload`): the raw JSON records the provider reads, and the query parameters
  it sends. Every field is an `Option<string>`, where `None` means the key is absent.
- `text.dfy` (`Text`): Python's `str.strip()`, `" ".join` and, as the inverse of the join,
  `str.split(" ")`.
- `stamp.dfy` (`Stamp`): the start-time parse `strptime(dt + st, "%Y%m%d%H:%M:%S")`, read
  strictly, and its inverse rendering.
- `tables.dfy` (`Tables`): the `G_CODE` and `P_CATE` tables and their lookups.
- `programme.dfy` (`Programme`): the per-entry rules of `__epgs_of_day`, and the list it
  builds as a specification function.
- `provider.dfy` (`Lg`): the host's `Channel` object and the `LG` class. `LG` holds the fields
  `channelGenreMap`, `genreMapInitialized` and `reqChannels`. Its methods are the source's
  loops, each proved equal to a specification function: `InitializeChannelGenreMap`,
  `GetSvcChannels`, `EpgsOfDay` and `GetPrograms`.

The two HTTP fetches are oracle arguments of type `Query -> Option<Response>`. `None` stands
for `_fetch_api_json` returning `None`. The clock is an argument too: `GetSvcChannels` takes
today's `YYYYMMDD` string, and `GetPrograms` takes `basisDate: nat -> string`, which gives the
string for today plus `d` days.

Three behaviours of the code are easy to misread:

- A blank or absent programme category code gives `["기타"]`, not an absent list, because `""`
  is a key of `P_CATE`. A non-empty code outside the table gives `["코드:" + code]`. So the
  fall-through, where neither branch applies and no category is set, can never happen, and
  `Tables.Categories` proves there is always exactly one entry.
- `get_svc_channels` defaults the channel list only when its key is absent. The genre flag is
  set only when `brdGnreDtoList` is a list.
- `get_programs` has no `try` around the conversion of one day.

## Model

| member | source | states |
|---|---|---|
| `Text.Strip` | epg2xml/providers/lg.py:144-145 | The stripped text is a slice of the input. Only whitespace is cut off before and after it, and neither of its ends is whitespace. It is empty exactly when the input is all whitespace. |
| `Text.StripIsUnique` | epg2xml/providers/lg.py:144-145 | Any slice with those properties is the one `Strip` returns, so the contract pins `strip()` down completely. |
| `Text.SplitJoinSpace` | epg2xml/providers/lg.py:161 | For a non-empty list of parts none of which contains a space, splitting `" ".join(parts)` on single spaces gives back exactly the parts. The source never joins an empty list, because of `if extras:`. |
| `Text.SplitJoinSpaceHead` | epg2xml/providers/lg.py:161 | For a non-empty list of parts where only the first may contain spaces, splitting the join gives the pieces of the first part, then the other parts unchanged. |
| `Text.JoinSpace` | epg2xml/providers/lg.py:161 | Python's `" ".join`: the parts separated by single spaces. The result is empty exactly for no parts or a single empty part. `Text.SplitJoinSpace` is its inverse. |
| `Stamp.ParseStamp` | epg2xml/providers/lg.py:151 | A successful parse yields a real calendar date and time: year 1-9999, the month's true length including leap years, hour 0-23, minute and second 0-59. |
| `Stamp.ParseFormatStamp` | epg2xml/providers/lg.py:151 | Every valid time is parsed back from its `YYYYMMDDHH:MM:SS` rendering. |
| `Stamp.FormatParseStamp` | epg2xml/providers/lg.py:151 | Any text that parses is the rendering of the time it parses to. So the parse is injective and loses nothing. |
| `Tables.Rating` | epg2xml/providers/lg.py:155 | `G_CODE` lookup with default 0. Codes "1".."4" give 7, 12, 15, 19. Every other code, including "0", "" and an absent key, gives 0. So the rating is always one of 0, 7, 12, 15, 19. |
| `Tables.Categories` | epg2xml/providers/lg.py:163-165 | There is always exactly one category. It is `P_CATE[code]` for a table key. Otherwise it is `"코드:" + code`. A blank or absent code gives "기타". |
| `Tables.CategoriesExamples` | epg2xml/providers/lg.py:16-21 | "03" gives 드라마, "99" gives 코드:99, and "", an absent code and "31" all give 기타. |
| `Programme.Title` | epg2xml/providers/lg.py:144 | The title is never empty and never padded. It is the stripped title when that is not blank, and 제목 없음 when it is. |
| `Programme.Description` | epg2xml/providers/lg.py:145 | The description is absent exactly when the raw one is blank. Otherwise it is the non-empty stripped text. |
| `Programme.ExtrasParts` | epg2xml/providers/lg.py:156-160 | The list of extras parts in the fixed order label, 자막, 화면해설, 수화. Every part is non-empty. |
| `Programme.Extras` | epg2xml/providers/lg.py:156-161 | Extras are unset exactly when the resolution label is empty or absent and none of the three flags is exactly "Y". When set, they are non-empty. |
| `Programme.Tags` | epg2xml/providers/lg.py:158-160 | The tags that apply, in fixed order: 자막 if the subtitle flag is "Y", then 화면해설 if the audio-description flag is "Y", then 수화 if the sign-language flag is "Y". Every tag is non-empty and holds no space. |
| `Programme.ExtrasDecode` | epg2xml/providers/lg.py:156-161 | For any resolution label, the extras string splits back into the label's own space-separated pieces, when the label is non-empty, followed by the tags that apply in their fixed order. So "Full HD" with subtitles gives "Full HD 자막". |
| `Programme.ExtrasDecodeSpaceFree` | epg2xml/providers/lg.py:156-161 | When the label holds no space, the extras string splits back into exactly the parts: the label if non-empty, then the tags that apply. |
| `Programme.ExtrasExample` | epg2xml/providers/lg.py:156-161 | Label 1080p with subtitle Y, audio description N and sign language Y gives "1080p 자막 수화". |
| `Programme.Accepted` | epg2xml/providers/lg.py:141-153 | The entries the loop keeps: records whose date and start time are both non-empty and whose concatenation parses. `Programme.Normalize` yields a record exactly for these. |
| `Programme.Normalize` | epg2xml/providers/lg.py:140-167 | An entry yields a record exactly when it is accepted: it is a record, its date and start time are non-empty, and their concatenation parses. The record carries the channel id, and its start time is that parse. |
| `Programme.NormalizeFields` | epg2xml/providers/lg.py:143-165 | Each record's fields follow the field rules: non-empty title, description absent or non-empty, rating from the table, extras from the flags, exactly one category. |
| `Programme.ProgramsOfDay` | epg2xml/providers/lg.py:138-168 | The day's list as a specification: each entry normalised in input order, the skipped ones left out. The list is never longer than the input. `Lg.LG.EpgsOfDay` is proved equal to it, and the lemmas below give its properties. |
| `Programme.ProgramsOfDayIsFilterMap` | epg2xml/providers/lg.py:138-168 | The day's list has exactly one record per accepted entry, in input order, and the k-th record is built from the k-th accepted entry. |
| `Programme.ProgramsOfDayRecords` | epg2xml/providers/lg.py:143-144 | Every record of the day belongs to the channel it was built for and has a title. |
| `Programme.ProgramsOfDayAppend` | epg2xml/providers/lg.py:140-167 | The list for `a + b` is the list for `a` followed by the list for `b`, so entries never change places. |
| `Programme.OneMalformedEntry` | epg2xml/providers/lg.py:140-153 | One entry that is not accepted, among accepted ones, costs exactly one record and not the day. |
| `Lg.AddGenres` | epg2xml/providers/lg.py:70-74 | The genre table after the loop over the genre list, with each code and name stored in turn. The table only grows. |
| `Lg.AddGenresEntries` | epg2xml/providers/lg.py:70-74 | The genre table only grows, and it gains the code of every record whose code and name are both non-empty. Every entry is either an old one left as it was, or comes from a record with non-empty code and name. |
| `Lg.AddGenresLastWins` | epg2xml/providers/lg.py:70-74 | A stored code maps to the name of the last record that carries it, as the dict assignment at lg.py:74 overwrites. An old code that no stored record carries keeps its old name. |
| `Lg.GenreCategory` | epg2xml/providers/lg.py:103-106 | The category rule has three cases. A known code gives its name. An unknown non-empty code gives `"장르코드:" + code`. An empty code gives "". |
| `Lg.Describe` | epg2xml/providers/lg.py:93-106 | An entry yields a descriptor exactly when its id and name are both non-empty. The descriptor copies id, name, number (default "") and icon (default "") from the entry, has an empty `EPG` and takes its category from the genre rule. |
| `Lg.ChannelDescriptors` | epg2xml/providers/lg.py:92-107 | The listing never has more descriptors than entries. Each descriptor has a non-empty id and name and an empty `EPG`. |
| `Lg.ChannelDescriptorsIsFilterMap` | epg2xml/providers/lg.py:92-107 | The listing has exactly one descriptor per entry with non-empty id and name, in input order, each built from its entry. |
| `Lg.ChannelListingExample` | epg2xml/providers/lg.py:92-95 | Two valid channels around one without a name give exactly two descriptors, in their input order. |
| `Lg.DayRecords` | epg2xml/providers/lg.py:122-135 | The records one (channel, day) fetch adds: none when the fetch fails, and otherwise the day's list of the schedule, an absent schedule read as []. `Lg.ChannelRecordsFailedDay` and `Lg.ChannelRecordsFetchedDay` state both cases. |
| `Lg.ChannelRecords` | epg2xml/providers/lg.py:121-135 | One channel's records for days 0 .. n-1 as a specification: each day's records appended after the earlier days'. `Lg.LG.CollectChannel` is proved equal to it. |
| `Lg.DayCount` | epg2xml/providers/lg.py:121 | The number of days `range(fetch_limit)` visits: the limit itself when it is not negative, and 0 when it is. |
| `Lg.ChannelRecordsFailedDay` | epg2xml/providers/lg.py:122-133 | A day whose fetch fails adds nothing: the records after that day equal the records before it, whatever the other days return. |
| `Lg.ChannelRecordsFetchedDay` | epg2xml/providers/lg.py:122-135 | A day whose fetch succeeds adds exactly that day's list, built from the schedule of the response, after the records of the earlier days. |
| `Lg.ChannelRecordsDayOrder` | epg2xml/providers/lg.py:121-135 | The records of the first m days are a prefix of those of the first n days, for m <= n. So days are appended in day order. |
| `Lg.ChannelRecordsAllFailed` | epg2xml/providers/lg.py:132-133 | If every fetch fails, the channel gains no record. |
| `Lg.OccurrencesDistinct` | epg2xml/providers/lg.py:120 | In a requested-channel list without repeats, each channel stands once, so it receives its records exactly once. |
| `Lg.LG.constructor` | epg2xml/providers/lg.py:48-49 | The provider starts with an empty genre table and the flag unset. |
| `Lg.LG.FetchLimit` | epg2xml/providers/lg.py:119 | The number of days to fetch: the configured value, or 2 when none is configured. |
| `Lg.LG.InitializeChannelGenreMap` | epg2xml/providers/lg.py:66-75 | If the genre field is not a list, the table and the flag are untouched. Otherwise the table becomes `AddGenres(old table, list)` and the flag is set. |
| `Lg.LG.GetSvcChannels` | epg2xml/providers/lg.py:78-110 | A failed fetch gives [] and changes nothing. Once the flag is set, the table never changes again. Otherwise the table is initialised from the response. The result is `ChannelDescriptors` of the channel list under the resulting table, and an absent list gives []. |
| `Lg.LG.EpgsOfDay` | epg2xml/providers/lg.py:138-168 | The loop returns exactly `ProgramsOfDay` of its input. |
| `Lg.LG.CollectChannel` | epg2xml/providers/lg.py:121-135 | The day loop appends the records of days 0 .. FETCH_LIMIT-1 to the channel, in day order, and skips days whose fetch fails. |
| `Lg.LG.GetPrograms` | epg2xml/providers/lg.py:114-135 | Each requested channel's programmes become the old ones followed by its records for the fetch window, once per time it is requested. Old records are never removed or reordered, and with no requested channel nothing changes. |

## Left out

- HTTP (`_fetch_api_json`, session headers, timeouts, the Cloudflare hint, lg.py:39-63) is I/O. It is the `fetch` oracle argument.
- `date.today()`, `timedelta` and `strftime` read the clock, so the day strings are arguments. The model takes "today" as fixed for the whole collection run. The source calls `date.today()` again for every (channel, day) pair (lg.py:122), so a run that crosses midnight asks later channels for later dates.
- `Stamp.ParseStamp`: does not model the leniency of Python's `strptime`, such as one-digit fields or non-ASCII digits. The model accepts exactly the fixed-width `YYYYMMDDHH:MM:SS` form.
- Only strings are modelled as JSON field values. `str()` coercion of numbers is left out, and a JSON `null` field is treated like an absent key. The source differs for four such fields. A `null` programme category code gives `코드:None`, and a `null` channel genre code gives `장르코드:None`. A `null` channel number gives `No` equal to `"None"`, and a `null` icon URL gives `Icon_url` equal to `None`. The model gives the absent-key result for all four.
- Only lists are modelled as the channel and schedule values, and only objects as the top-level responses. The cases the model cannot express are these:
  - A string or object schedule value is iterated. None of its elements is a record, so each is skipped and the day gives [].
  - A string or object channel value is iterated too, but the channel loop calls `get` on each element. A non-empty one raises an exception, and only an empty one gives [].
  - A `null`, number or boolean channel or schedule value raises an exception.
  - A channel entry that is not a record raises an exception.
  - A truthy top-level response that is not an object raises an exception at its first `get`.
  - A truthy non-string title or description raises an exception at `strip`. A falsy one, such as `0`, `false`, `[]` or `{}`, reads as "".
  - A truthy non-string date or start time raises `TypeError` in the concatenation or in `strptime`. The `except ValueError` clause does not catch it, so the whole collection run stops.
  - A truthy non-string resolution label raises an exception in the join of the extras.
- The fetch oracle is a pure function, so a channel listed twice in `reqChannels` gets the same records twice. The source fetches again for the second listing (lg.py:120-135), and the broadcaster may answer differently.
- The `no_endtime` decorator and the `EPGProgram` and `EPGProvider` base classes come from `epg2xml.providers`, which is not part of this model. `Programme` holds only the fields `__epgs_of_day` sets, and it has no end time.
- Logging is left out.
- `epg2xml/__main__.py` (CLI, configuration, output redirection, UNIX socket) and its `parallel` option are left out: they are I/O and concurrency.
- `cfg["FETCH_LIMIT"]` is taken as an integer. The `int()` conversion of a configured string is left out.
- `Lg.LG.CollectChannel`: the inner `for d in range(fetch_limit)` loop of `get_programs` is its own method. The order of fetches and appends is the same as in the source.
- An empty JSON object is falsy in the source and is skipped. The model treats it as a response whose keys are all absent, which leads to the same result: nothing is initialised, listed or appended.
