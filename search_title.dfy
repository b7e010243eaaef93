/**
 * The field title shown for one search result: prompts longer than 50
 * characters are cut to their first 50 characters followed by "...".
 */
module SearchResults {

  const TitleLength: nat := 50
  const Ellipsis: string := "..."

  function FieldTitle(prompt: string): (title: string)
    ensures |title| <= TitleLength + |Ellipsis|
    ensures |prompt| <= TitleLength ==> title == prompt
    ensures |prompt| > TitleLength ==>
              && |title| == TitleLength + |Ellipsis|
              && title[..TitleLength] == prompt[..TitleLength]
              && title[TitleLength..] == Ellipsis
  {
    if |prompt| > TitleLength then prompt[..TitleLength] + Ellipsis else prompt
  }

}
