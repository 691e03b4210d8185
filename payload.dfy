/**
 * The JSON the LG U+ channel-guide endpoints return, as far as the provider reads it,
 * and the query parameters it sends. A field is `None` when its key is absent.
 */
module Payload {
  import opened Wrappers

  /** Python truthiness of a string field: present and non-empty. */
  predicate Truthy(f: Option<string>) {
    f.Some? && f.value != ""
  }

  /** One element of `brdGnreDtoList`: a record, or any other JSON value. */
  datatype GenreItem =
    | GenreRecord(
        gnreCd: Option<string>,   // urcBrdCntrTvChnlGnreCd
        gnreNm: Option<string>)   // urcBrdCntrTvChnlGnreNm
    | GenreNonRecord

  /** One element of `brdCntrTvChnlIDtoList`. */
  datatype ChannelEntry = ChannelEntry(
    chnlId: Option<string>,       // urcBrdCntrTvChnlId
    chnlNm: Option<string>,       // urcBrdCntrTvChnlNm
    chnlNo: Option<string>,       // urcBrdCntrTvChnlNo
    bgImgUrl: Option<string>,     // bgImgUrl
    gnreCd: Option<string>)       // urcBrdCntrTvChnlGnreCd

  /**
   * The channel-list response. `genres` is `None` when `brdGnreDtoList` is absent or is
   * not a list; `channels` is `None` when `brdCntrTvChnlIDtoList` is absent.
   */
  datatype ChannelResponse = ChannelResponse(
    genres: Option<seq<GenreItem>>,
    channels: Option<seq<ChannelEntry>>)

  /** One element of `brdCntTvSchIDtoList`: a record, or any other JSON value. */
  datatype ProgItem =
    | ProgRecord(
        titNm: Option<string>,    // brdPgmTitNm
        dscr: Option<string>,     // brdPgmDscr
        brdDt: Option<string>,    // brdCntrTvChnlBrdDt, YYYYMMDD
        strtTme: Option<string>,  // epgStrtTme, HH:MM:SS
        ageGrdCd: Option<string>, // brdWtchAgeGrdCd
        rsolNm: Option<string>,   // brdPgmRsolNm
        subtYn: Option<string>,   // subtBrdYn
        explYn: Option<string>,   // explBrdYn
        silaYn: Option<string>,   // silaBrdYn
        schdGnreCd: Option<string>) // urcBrdCntrTvSchdGnreCd
    | ProgNonRecord

  /** The schedule response; `schedule` is `None` when `brdCntTvSchIDtoList` is absent. */
  datatype ScheduleResponse = ScheduleResponse(schedule: Option<seq<ProgItem>>)

  /** `CHNL_TYPE` value meaning all channels. */
  const CHNL_TYPE_ALL: string := "1"

  /** Query of the channel-list endpoint: `BAS_DT`, `CHNL_TYPE`. */
  datatype ChannelQuery = ChannelQuery(basDt: string, chnlType: string)

  /** Query of the schedule endpoint: `BAS_DT`, `CHNL_TYPE`, `CHNL_ID`. */
  datatype ScheduleQuery = ScheduleQuery(basDt: string, chnlType: string, chnlId: string)
}
