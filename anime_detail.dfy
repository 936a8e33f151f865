/**
 * The detail page of one anime (src/pages/Presentation/detail/index.js): the
 * choice between spinner, error and content, the collapsible synopsis, the
 * text fallbacks and the links of the related-content chips.
 */
module AnimeDetail {
  import opened Wrappers
  import opened Decimal
  import opened Query

  const DetailResource: string := "animeDetail"
  /** Milliseconds a detail result stays fresh in the cache (ten minutes). */
  const DetailStaleTime: nat := 600000
  /** Characters of synopsis shown before "Read more". */
  const SynopsisLimit: nat := 300
  const DetailErrorText: string := "Unknown error occurred. Please try again."
  const NoSynopsisText: string := "No synopsis available."

  /** The detail query: its cache key, the id `getAnimeDetail` is called with, and its stale time. */
  datatype DetailQuery = DetailQuery(key: QueryKey, requestId: string, staleTime: nat)

  /**
   * `queryKey: ["animeDetail", id]` with `getAnimeDetail(id)` and a stale time
   * of ten minutes, `id` being the route parameter as text: the key names the
   * very id that is fetched.
   */
  function DetailQueryFor(id: string): (q: DetailQuery)
    ensures q.requestId == id && q.key == [Text(DetailResource), Text(q.requestId)]
    ensures q.staleTime == DetailStaleTime
  {
    DetailQuery([Text(DetailResource), Text(id)], id, DetailStaleTime)
  }

  /** Two detail queries share a cache entry exactly when their ids are equal. */
  lemma DetailKeysDistinguish(id1: string, id2: string)
    ensures DetailQueryFor(id1).key == DetailQueryFor(id2).key <==> id1 == id2
  {
    var k1, k2 := DetailQueryFor(id1).key, DetailQueryFor(id2).key;
    if k1 == k2 {
      assert k1[1] == k2[1];
    }
  }

  /** One related title: `mal_id`, `type` and `name`. */
  datatype Entry = Entry(malId: int, kind: string, name: string)
  datatype Relation = Relation(relation: string, entries: seq<Entry>)
  /** The fields of the detail record this page derives text from; each may be missing. */
  datatype Anime = Anime(title: Option<string>, titleEnglish: Option<string>, synopsis: Option<string>,
                         episodes: Option<int>, kind: Option<string>)

  datatype DetailView = Spinner | ErrorPage(message: string) | Content(anime: Option<Anime>)

  /**
   * The page's early returns: the spinner whenever the query is loading (it
   * wins over an error), then the error page, otherwise the content, which
   * is rendered even when the record is missing.
   */
  function ChooseView(status: QueryStatus, isLoading: bool, errorMessage: Option<string>,
                      anime: Option<Anime>): (v: DetailView)
    ensures v.Spinner? <==> status == Loading || isLoading
    ensures v.ErrorPage? <==> status == Error && !isLoading
    ensures v.Content? <==> status != Loading && status != Error && !isLoading
    ensures v.ErrorPage? ==> v.message == TextOr(errorMessage, DetailErrorText)
    ensures v.Content? ==> v.anime == anime
  {
    if status == Loading || isLoading then Spinner
    else if status == Error then ErrorPage(TextOr(errorMessage, DetailErrorText))
    else Content(anime)
  }

  function Min(a: nat, b: nat): nat {
    if a <= b then a else b
  }

  /**
   * The synopsis paragraph: the whole text when expanded; collapsed, its first
   * 300 characters followed by "..." only when something was cut; and a fixed
   * sentence when there is no synopsis.
   */
  function SynopsisText(synopsis: Option<string>, showFull: bool): (text: string)
    ensures synopsis.None? || synopsis.value == "" ==> text == NoSynopsisText
    ensures synopsis.Some? && synopsis.value != "" && showFull ==> text == synopsis.value
    ensures synopsis.Some? && synopsis.value != "" && !showFull ==>
      if |synopsis.value| > SynopsisLimit then text == synopsis.value[..SynopsisLimit] + "..."
      else text == synopsis.value
    ensures synopsis.Some? && synopsis.value != "" && !showFull ==> |text| <= SynopsisLimit + 3
  {
    if synopsis.Some? && synopsis.value != "" then
      var s := synopsis.value;
      if showFull then s
      else s[..Min(SynopsisLimit, |s|)] + (if |s| > SynopsisLimit then "..." else "")
    else NoSynopsisText
  }

  /** The Read-more button and its label: present only for a synopsis longer than 300 characters. */
  function ReadMoreButton(synopsis: Option<string>, showFull: bool): (text: Option<string>)
    ensures text.Some? <==> synopsis.Some? && |synopsis.value| > SynopsisLimit
    ensures text.Some? ==> text.value == if showFull then "Show less" else "Read more"
  {
    if synopsis.Some? && synopsis.value != "" && |synopsis.value| > SynopsisLimit then
      Some(if showFull then "Show less" else "Read more")
    else None
  }

  /**
   * Without the button, the toggle state is invisible: a synopsis of at most
   * 300 characters reads the same expanded or collapsed.
   */
  lemma ToggleInvisibleWithoutButton(synopsis: Option<string>)
    requires ReadMoreButton(synopsis, false).None?
    ensures SynopsisText(synopsis, true) == SynopsisText(synopsis, false)
  {
    if synopsis.Some? && synopsis.value != "" {
      assert synopsis.value[..|synopsis.value|] == synopsis.value;
    }
  }

  /** The English title line: shown when present, non-empty and different from the main title. */
  function EnglishTitle(anime: Option<Anime>): (shown: Option<string>)
    ensures shown.Some? <==> anime.Some? && anime.value.titleEnglish.Some? && anime.value.titleEnglish.value != ""
                             && anime.value.titleEnglish != anime.value.title
    ensures shown.Some? ==> Some(shown.value) == anime.value.titleEnglish && Some(shown.value) != anime.value.title
  {
    if anime.Some? && anime.value.titleEnglish.Some? && anime.value.titleEnglish.value != ""
       && anime.value.titleEnglish != anime.value.title
    then anime.value.titleEnglish
    else None
  }

  /** `episodes ? `${episodes} episodes` : "? episodes"`: zero and missing counts show as "?". */
  function EpisodesLabel(episodes: Option<int>): (text: string)
    ensures episodes.Some? && episodes.value != 0 ==> text == IntToDecimal(episodes.value) + " episodes"
    ensures episodes.None? || episodes.value == 0 ==> text == "? episodes"
  {
    if episodes.Some? && episodes.value != 0 then IntToDecimal(episodes.value) + " episodes"
    else "? episodes"
  }

  /** The episode label names the count it was made from: reading its leading number gives it back. */
  lemma EpisodesLabelReadsBack(n: int)
    requires n != 0
    ensures ParseInt(EpisodesLabel(Some(n))) == Some(n)
  {
    ParseIntRoundTrip(n, " episodes");
  }

  /** `anime?.type || "Unknown"` */
  function TypeLabel(anime: Option<Anime>): (text: string)
    ensures anime.Some? && anime.value.kind.Some? && anime.value.kind.value != "" ==> text == anime.value.kind.value
    ensures anime.None? || anime.value.kind.None? || anime.value.kind.value == "" ==> text == "Unknown"
  {
    TextOr(if anime.Some? then anime.value.kind else None, "Unknown")
  }

  /** A related-content chip: its label, the route it links to, and whether it is clickable. */
  datatype Chip = Chip(caption: string, linkTo: Option<string>, clickable: bool)

  /** Only an entry of type "anime" becomes a clickable link, to `/anime/<mal_id>`. */
  function RelationChip(e: Entry): (c: Chip)
    ensures c.caption == e.name
    ensures c.clickable <==> e.kind == "anime"
    ensures c.linkTo.Some? <==> c.clickable
    ensures c.linkTo.Some? ==> c.linkTo.value == "/anime/" + IntToDecimal(e.malId)
  {
    if e.kind == "anime" then Chip(e.name, Some("/anime/" + IntToDecimal(e.malId)), true)
    else Chip(e.name, None, false)
  }

  /** A chip's link leads to the detail page of its own entry: the id after "/anime/" reads back as `mal_id`. */
  lemma ChipLinksToEntry(e: Entry)
    requires e.kind == "anime"
    ensures var link := RelationChip(e).linkTo.value;
      |link| > 7 && link[..7] == "/anime/" && ParseInt(link[7..]) == Some(e.malId)
  {
    var link := RelationChip(e).linkTo.value;
    assert link[7..] == IntToDecimal(e.malId) + [];
    ParseIntRoundTrip(e.malId, []);
  }

  /** The chips of every relation, one per entry, in order. */
  function RelationChips(relations: seq<Relation>): (chips: seq<seq<Chip>>)
    ensures |chips| == |relations|
    ensures forall i :: 0 <= i < |relations| ==>
      |chips[i]| == |relations[i].entries|
      && forall j :: 0 <= j < |chips[i]| ==> chips[i][j] == RelationChip(relations[i].entries[j])
  {
    seq(|relations|, i requires 0 <= i < |relations| =>
      seq(|relations[i].entries|, j requires 0 <= j < |relations[i].entries| => RelationChip(relations[i].entries[j])))
  }

  /** The `showFullSynopsis` state, flipped by the Read-more button. */
  class SynopsisToggle {
    var showFullSynopsis: bool

    constructor ()
      ensures !showFullSynopsis
    {
      showFullSynopsis := false;
    }

    /** `setShowFullSynopsis(!showFullSynopsis)`: two presses restore the state. */
    method Press()
      modifies this
      ensures showFullSynopsis == !old(showFullSynopsis)
    {
      showFullSynopsis := !showFullSynopsis;
    }
  }
}
