/**
 * The dashboard's page: the outlet filter over the fetched items, the six
 * filter buttons, the refresh cycle that updates the session state, and
 * the choice of what the news grid shows.
 */
module App {
  import opened Types
  import opened Text

  // ---------------------------------------------------------------------
  // Filter buttons and the source filter
  // ---------------------------------------------------------------------

  /** The sentinel filter id that shows every outlet. */
  const AllId := "all"

  /** One filter button: the id it selects and the label it shows. */
  datatype SourceOption = SourceOption(id: string, name: string)

  const SourcesList: seq<SourceOption> := [
    SourceOption(AllId, "Todos los Medios"),
    SourceOption("Clarín", "Clarín"),
    SourceOption("La Nación", "La Nación"),
    SourceOption("Infobae", "Infobae"),
    SourceOption("Página/12", "Página/12"),
    SourceOption("Ámbito Financiero", "Ámbito")
  ]

  /**
   * The ids the filter can take: six of them, the sentinel first, pairwise
   * distinct, one per button, and naming every outlet of the enum.
   */
  function SourceIds(): (ids: seq<string>)
    ensures |ids| == 6 && ids[0] == AllId
    ensures forall i, j :: 0 <= i < j < |ids| ==> ids[i] != ids[j]
    ensures forall o :: o in SourcesList ==> o.id in ids
    ensures forall n: Newspaper :: n.Name() in ids
  {
    var ids := seq(|SourcesList|, i requires 0 <= i < |SourcesList| => SourcesList[i].id);
    assert ids == [AllId, Clarin.Name(), LaNacion.Name(), Infobae.Name(), Pagina12.Name(), Ambito.Name()];
    ids
  }

  /** An item is kept by filter `f` when its source and `f` lower-case alike. */
  predicate Matches(item: NewsItem, f: string) {
    Lower(item.source) == Lower(f)
  }

  /** `news.filter(...)`: the matching items, in their original order. */
  function KeepMatching(news: seq<NewsItem>, f: string): (r: seq<NewsItem>)
    ensures |r| <= |news|
    ensures forall i :: 0 <= i < |r| ==> Matches(r[i], f)
    ensures forall x :: x in news && Matches(x, f) ==> x in r
    ensures forall x :: x in r ==> x in news
  {
    if news == [] then []
    else if Matches(news[0], f) then [news[0]] + KeepMatching(news[1..], f)
    else KeepMatching(news[1..], f)
  }

  /** The visible items: everything under `'all'`, else the matching items. */
  function FilteredNews(news: seq<NewsItem>, filter: string): (r: seq<NewsItem>)
    ensures filter == AllId ==> r == news
    ensures filter != AllId ==> forall i :: 0 <= i < |r| ==> Matches(r[i], filter)
    ensures filter != AllId ==> forall x :: x in news && Matches(x, filter) ==> x in r
  {
    if filter == AllId then news else KeepMatching(news, filter)
  }

  /** `r` is what remains of `s` after deleting some of its elements. */
  ghost predicate SubsequenceOf(r: seq<NewsItem>, s: seq<NewsItem>)
    decreases |s|
  {
    r == [] || (s != [] && ((r[0] == s[0] && SubsequenceOf(r[1..], s[1..])) || SubsequenceOf(r, s[1..])))
  }

  lemma {:induction false} KeepMatchingSubsequence(news: seq<NewsItem>, f: string)
    ensures SubsequenceOf(KeepMatching(news, f), news)
    decreases |news|
  {
    if news != [] {
      KeepMatchingSubsequence(news[1..], f);
      var rest := KeepMatching(news[1..], f);
      if Matches(news[0], f) {
        assert ([news[0]] + rest)[1..] == rest;
      }
    }
  }

  lemma {:induction false} SubsequenceOfSelf(s: seq<NewsItem>)
    ensures SubsequenceOf(s, s)
    decreases |s|
  {
    if s != [] {
      SubsequenceOfSelf(s[1..]);
    }
  }

  /** The visible items keep the relative order they have in `news`. */
  lemma FilterPreservesOrder(news: seq<NewsItem>, filter: string)
    ensures SubsequenceOf(FilteredNews(news, filter), news)
  {
    if filter == AllId {
      SubsequenceOfSelf(news);
    } else {
      KeepMatchingSubsequence(news, filter);
    }
  }

  lemma {:induction false} KeepMatchingCounts(news: seq<NewsItem>, f: string)
    ensures forall x :: multiset(KeepMatching(news, f))[x] == if Matches(x, f) then multiset(news)[x] else 0
    decreases |news|
  {
    if news != [] {
      KeepMatchingCounts(news[1..], f);
      assert news == [news[0]] + news[1..];
    }
  }

  /** A non-`'all'` filter keeps every copy of a matching item and no copy of another. */
  lemma FilterCounts(news: seq<NewsItem>, filter: string)
    requires filter != AllId
    ensures forall x :: multiset(FilteredNews(news, filter))[x] == if Matches(x, filter) then multiset(news)[x] else 0
  {
    KeepMatchingCounts(news, filter);
  }

  lemma {:induction false} KeepMatchingIdempotent(news: seq<NewsItem>, f: string)
    ensures KeepMatching(KeepMatching(news, f), f) == KeepMatching(news, f)
    decreases |news|
  {
    if news != [] {
      KeepMatchingIdempotent(news[1..], f);
      var rest := KeepMatching(news[1..], f);
      if Matches(news[0], f) {
        assert ([news[0]] + rest)[1..] == rest;
      }
    }
  }

  /** Filtering the visible items again with the same id changes nothing. */
  lemma FilterIdempotent(news: seq<NewsItem>, filter: string)
    ensures FilteredNews(FilteredNews(news, filter), filter) == FilteredNews(news, filter)
  {
    if filter != AllId {
      KeepMatchingIdempotent(news, filter);
    }
  }

  lemma {:induction false} KeepMatchingCaseInsensitive(news: seq<NewsItem>, f: string, g: string)
    requires Lower(f) == Lower(g)
    ensures KeepMatching(news, f) == KeepMatching(news, g)
    decreases |news|
  {
    if news != [] {
      KeepMatchingCaseInsensitive(news[1..], f, g);
    }
  }

  /** Two outlet ids that lower-case alike show the same items. */
  lemma FilterCaseInsensitive(news: seq<NewsItem>, f: string, g: string)
    requires f != AllId && g != AllId && Lower(f) == Lower(g)
    ensures FilteredNews(news, f) == FilteredNews(news, g)
  {
    KeepMatchingCaseInsensitive(news, f, g);
  }

  // ---------------------------------------------------------------------
  // What the page shows
  // ---------------------------------------------------------------------

  /** The number of placeholder cards shown while a refresh is pending. */
  const SkeletonCount := 9

  /** The banner text shown whenever a refresh fails, for whatever reason. */
  const LoadFailedMessage := "No se pudieron cargar las noticias. Verifica tu conexión o API Key."

  /** The content of the news grid. */
  datatype Grid = Skeletons(count: nat) | Cards(items: seq<NewsItem>) | EmptyState

  /** The grid: placeholders while loading, else the visible cards, else the empty panel. */
  function SelectGrid(loading: bool, visible: seq<NewsItem>): (g: Grid)
    ensures g == Skeletons(SkeletonCount) <==> loading
    ensures g == Cards(visible) <==> !loading && visible != []
    ensures g == EmptyState <==> !loading && visible == []
  {
    if loading then Skeletons(SkeletonCount)
    else if |visible| > 0 then Cards(visible)
    else EmptyState
  }

  /** The parts of the page that depend on the session state. */
  datatype Page = Page(
    stamp: Option<Timestamp>,    // "Actualizado: ..." next to the button
    refreshEnabled: bool,        // whether the refresh button reacts
    banner: Option<string>,      // the red error panel
    activeFilter: string,        // the highlighted filter button
    grid: Grid)

  function Render(news: seq<NewsItem>, loading: bool, error: Option<string>,
                  lastUpdated: Option<Timestamp>, filter: string): (p: Page)
    ensures p.stamp.Some? <==> lastUpdated.Some? && !loading
    ensures p.stamp.Some? ==> p.stamp == lastUpdated
    ensures p.refreshEnabled <==> !loading
    ensures p.banner == error && p.activeFilter == filter
    ensures loading ==> p.grid == Skeletons(SkeletonCount)
    ensures !loading && FilteredNews(news, filter) != [] ==> p.grid == Cards(FilteredNews(news, filter))
    ensures !loading && FilteredNews(news, filter) == [] ==> p.grid == EmptyState
  {
    Page(if lastUpdated.Some? && !loading then lastUpdated else None,
         !loading,
         error,
         filter,
         SelectGrid(loading, FilteredNews(news, filter)))
  }

  // ---------------------------------------------------------------------
  // The session state and the refresh cycle
  // ---------------------------------------------------------------------

  /**
   * The page's state hooks. A refresh is split at its one `await`: `Begin`
   * runs before the call, `Settle` when the call's outcome arrives.
   */
  class Dashboard {
    var news: seq<NewsItem>
    var loading: bool
    var error: Option<string>
    var lastUpdated: Option<Timestamp>
    var filter: string

    /**
     * The filter is always one of the button ids, the only error ever shown
     * is the fixed message, and items are only ever present once a refresh
     * has succeeded and stamped the time.
     */
    ghost predicate Valid()
      reads this
    {
      && filter in SourceIds()
      && (error.Some? ==> error.value == LoadFailedMessage)
      && (lastUpdated.None? ==> news == [])
    }

    function View(): (p: Page)
      reads this
    {
      Render(news, loading, error, lastUpdated, filter)
    }

    /**
     * What the invariant means on screen: the banner is absent or the fixed
     * message, and until a refresh has succeeded the grid never shows cards.
     */
    lemma ValidPage()
      requires Valid()
      ensures View().banner == None || View().banner == Some(LoadFailedMessage)
      ensures View().activeFilter in SourceIds()
      ensures lastUpdated == None ==> View().grid == EmptyState || View().grid == Skeletons(SkeletonCount)
    {
    }

    /** The initial hook values: no items, loading, no error, no stamp, every outlet. */
    constructor ()
      ensures Valid()
      ensures news == [] && loading && error == None && lastUpdated == None && filter == AllId
    {
      news := [];
      loading := true;
      error := None;
      lastUpdated := None;
      filter := AllId;
    }

    /** The start of a refresh: show the placeholders and hide the banner. */
    method Begin()
      requires Valid()
      modifies this
      ensures Valid()
      ensures loading && error == None
      ensures news == old(news) && lastUpdated == old(lastUpdated) && filter == old(filter)
    {
      loading := true;
      error := None;
    }

    /** The call returned: take its items as they are and stamp the time. */
    method Succeed(result: FetchResult, now: Timestamp)
      requires Valid()
      modifies this
      ensures Valid()
      ensures news == result.news && lastUpdated == Some(now)
      ensures loading == old(loading) && error == old(error) && filter == old(filter)
    {
      news := result.news;
      lastUpdated := Some(now);
    }

    /** The call threw: show the fixed message; the items stay as they were. */
    method Fail()
      requires Valid()
      modifies this
      ensures Valid()
      ensures error == Some(LoadFailedMessage)
      ensures news == old(news) && lastUpdated == old(lastUpdated)
      ensures loading == old(loading) && filter == old(filter)
    {
      error := Some(LoadFailedMessage);
    }

    /** Whatever happened, the refresh is over. */
    method Finish()
      requires Valid()
      modifies this
      ensures Valid()
      ensures !loading
      ensures news == old(news) && error == old(error)
      ensures lastUpdated == old(lastUpdated) && filter == old(filter)
    {
      loading := false;
    }

    /** The pending call settles with `outcome`: the try, catch and finally arms. */
    method Settle(outcome: FetchOutcome, now: Timestamp)
      requires Valid() && loading && error == None
      modifies this
      ensures Valid()
      ensures !loading && filter == old(filter)
      ensures outcome.Fetched? ==> news == outcome.result.news && lastUpdated == Some(now) && error == None
      ensures outcome.Threw? ==> news == old(news) && lastUpdated == old(lastUpdated) && error == Some(LoadFailedMessage)
    {
      match outcome {
        case Fetched(result) => Succeed(result, now);
        case Threw(_) => Fail();
      }
      Finish();
    }

    /** One whole refresh, with nothing else happening while its call is pending. */
    method LoadNews(outcome: FetchOutcome, now: Timestamp)
      requires Valid()
      modifies this
      ensures Valid()
      ensures !loading && filter == old(filter)
      ensures outcome.Fetched? ==> news == outcome.result.news && lastUpdated == Some(now) && error == None
      ensures outcome.Threw? ==> news == old(news) && lastUpdated == old(lastUpdated) && error == Some(LoadFailedMessage)
      ensures View().refreshEnabled
      ensures outcome.Fetched? ==> View().banner == None && View().stamp == Some(now)
    {
      Begin();
      Settle(outcome, now);
    }

    /**
     * A click on the refresh button. The button is disabled while loading,
     * so a click then does nothing; otherwise it starts a refresh.
     */
    method ClickRefresh() returns (started: bool)
      requires Valid()
      modifies this
      ensures Valid()
      ensures started <==> !old(loading)
      ensures !started ==> unchanged(this)
      ensures started ==> loading && error == None && news == old(news)
      ensures started ==> lastUpdated == old(lastUpdated) && filter == old(filter)
    {
      if loading {
        started := false;
      } else {
        Begin();
        started := true;
      }
    }

    /** A click on a filter button selects that button's id and nothing else. */
    method SelectFilter(option: SourceOption)
      requires Valid() && option in SourcesList
      modifies this
      ensures Valid()
      ensures filter == option.id
      ensures news == old(news) && loading == old(loading)
      ensures error == old(error) && lastUpdated == old(lastUpdated)
    {
      filter := option.id;
    }
  }
}
