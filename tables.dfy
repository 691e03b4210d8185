/** The provider's two fixed code tables, `G_CODE` (age ratings) and `P_CATE` (programme genres). */
module Tables {
  import opened Wrappers

  /** Age-rating code to minimum viewing age. */
  const G_CODE: map<string, int> := map["0" := 0, "1" := 7, "2" := 12, "3" := 15, "4" := 19, "" := 0]

  /** Programme genre code to genre name; `"31"` and the blank code are both "other". */
  const P_CATE: map<string, string> := map[
    "00" := "영화", "01" := "스포츠/취미", "02" := "만화", "03" := "드라마", "04" := "교양/다큐",
    "05" := "스포츠/취미", "06" := "교육", "07" := "어린이", "08" := "연예/오락",
    "09" := "공연/음악", "10" := "게임", "11" := "다큐", "12" := "뉴스/정보",
    "13" := "라이프", "15" := "홈쇼핑", "16" := "경제/부동산", "31" := "기타", "" := "기타"]

  const OTHER: string := "기타"

  /** The minimum age for a raw `brdWtchAgeGrdCd`; an absent key reads as `""`. */
  function Rating(code: Option<string>): (r: int)
    ensures r in {0, 7, 12, 15, 19}
    ensures code == Some("1") ==> r == 7
    ensures code == Some("2") ==> r == 12
    ensures code == Some("3") ==> r == 15
    ensures code == Some("4") ==> r == 19
    ensures code !in {Some("1"), Some("2"), Some("3"), Some("4")} ==> r == 0
  {
    var c := code.GetOrElse("");
    if c in G_CODE then G_CODE[c] else 0
  }

  /** The categories list for a raw `urcBrdCntrTvSchdGnreCd`; an absent key reads as `""`. */
  function Categories(code: Option<string>): (r: seq<string>)
    ensures |r| == 1
    ensures code.GetOrElse("") in P_CATE ==> r == [P_CATE[code.GetOrElse("")]]
    ensures code.GetOrElse("") !in P_CATE ==> r == ["코드:" + code.GetOrElse("")]
    ensures code.GetOrElse("") == "" ==> r == [OTHER]
  {
    var c := code.GetOrElse("");
    if c in P_CATE then [P_CATE[c]]
    else if c != "" then ["코드:" + c]
    else []
  }

  /**
   * Sample lookups: a table code gives its name, an unknown code its placeholder, and a
   * blank or absent code, like the other-genre code "31", gives 기타.
   */
  lemma CategoriesExamples()
    ensures Categories(Some("03")) == ["드라마"]
    ensures Categories(Some("99")) == ["코드:99"]
    ensures Categories(Some("")) == [OTHER] && Categories(None) == [OTHER]
    ensures Categories(Some("31")) == [OTHER]
  {
    assert "99" !in P_CATE.Keys by {
      assert forall k :: k in P_CATE.Keys ==> |k| == 0 || k[0] != '9';
    }
    assert "코드:" + "99" == "코드:99";
  }
}
