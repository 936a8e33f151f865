/**
 * The front face of the rotating card
 * (src/components/Cards/RotatingCard/RotatingCardFront.js): a string title
 * longer than the limit is cut and ends in an ellipsis; any other title, and
 * any title that is not a string, is shown as given.
 */
module RotatingCard {

  /** Longest string title shown in full. */
  const TitleLimit: nat := 50

  /** Appended to a cut title. */
  const Ellipsis: string := "..."

  /** The `title` prop: a string, or a React node shown as is (identified here by a number). */
  datatype Title = Text(text: string) | Node(id: nat)

  /** The title as the card displays it. */
  function DisplayTitle(title: Title): (shown: Title)
    ensures title.Node? ==> shown == title
    ensures title.Text? ==> shown.Text? && |shown.text| <= TitleLimit + |Ellipsis|
    ensures title.Text? && |title.text| <= TitleLimit ==> shown == title
    ensures title.Text? && |title.text| > TitleLimit ==>
      shown.Text? && |shown.text| == TitleLimit + |Ellipsis| &&
      shown.text[..TitleLimit] == title.text[..TitleLimit] &&
      shown.text[TitleLimit..] == Ellipsis
  {
    match title
    case Text(s) => if |s| > TitleLimit then Text(s[..TitleLimit] + Ellipsis) else title
    case Node(_) => title
  }

  /** Displaying an already displayed title changes nothing. */
  lemma {:induction false} DisplayTitleIdempotent(title: Title)
    ensures DisplayTitle(DisplayTitle(title)) == DisplayTitle(title)
  {
    if title.Text? && |title.text| > TitleLimit {
      var shown := DisplayTitle(title).text;
      assert shown[..TitleLimit] + Ellipsis == shown;
    }
  }
}
