/**
 * Clients of the dashboard that follow a session step by step and check,
 * from the contracts alone, what the page shows at each point.
 */
module Scenarios {
  import opened Types
  import opened App
  import Text

  function Item(id: string, source: string): (n: NewsItem) {
    NewsItem(id, "", "", "", source, "", "", None)
  }

  /** Five items, one per outlet, under `'all'`: five cards in the order received. */
  method FiveOutlets(now: Timestamp) {
    var d := new Dashboard();
    var items := [Item("1", "Clarín"), Item("2", "La Nación"), Item("3", "Infobae"),
                  Item("4", "Página/12"), Item("5", "Ámbito Financiero")];
    d.LoadNews(Fetched(FetchResult(items, [])), now);
    assert d.View().grid == Cards(items);
    assert d.View().stamp == Some(now) && d.View().banner == None;
  }

  /** An empty answer is the empty panel, not an error. */
  method NoItems(now: Timestamp) {
    var d := new Dashboard();
    d.LoadNews(Fetched(FetchResult([], [])), now);
    assert d.View().grid == EmptyState && d.View().banner == None;
  }

  /** Under the Infobae filter only the two Infobae items show, in their order. */
  method InfobaeOnly(now: Timestamp) {
    var d := new Dashboard();
    var c, i1, i2 := Item("1", "Clarín"), Item("2", "Infobae"), Item("3", "Infobae");
    d.LoadNews(Fetched(FetchResult([i1, c, i2], [])), now);
    d.SelectFilter(SourcesList[3]);
    InfobaeFilter(i1, c, i2);
    assert d.View().grid == Cards([i1, i2]);
  }

  lemma InfobaeFilter(i1: NewsItem, c: NewsItem, i2: NewsItem)
    requires i1.source == i2.source == "Infobae" && c.source == "Clarín"
    ensures FilteredNews([i1, c, i2], "Infobae") == [i1, i2]
  {
    assert |Text.Lower(c.source)| != |Text.Lower("Infobae")|;
    assert !Matches(c, "Infobae") && Matches(i1, "Infobae") && Matches(i2, "Infobae");
    assert "Infobae" != AllId;
    assert [i1, c, i2][1..] == [c, i2] && [c, i2][1..] == [i2] && [i2][1..] == [];
    assert KeepMatching([i2], "Infobae") == [i2];
    assert KeepMatching([c, i2], "Infobae") == [i2];
  }

  /** A missing key fails the refresh with the fixed message. */
  method MissingKey() {
    var d := new Dashboard();
    d.LoadNews(Threw(MissingApiKey), Timestamp(0));
    assert d.View().banner == Some(LoadFailedMessage);
    assert d.View().grid == EmptyState && d.View().stamp == None;
  }

  /** A second click while a refresh is pending changes nothing. */
  method ClickWhileLoading() {
    var d := new Dashboard();
    var started := d.ClickRefresh();
    assert !started && d.View().grid == Skeletons(SkeletonCount);
  }

  /** After a failed refresh the previous items show again, under the error banner. */
  method FailureKeepsPreviousItems(now: Timestamp, reason: FetchError) {
    var d := new Dashboard();
    var items := [Item("1", "Infobae")];
    d.LoadNews(Fetched(FetchResult(items, [])), now);
    var started := d.ClickRefresh();
    assert started && d.View().grid == Skeletons(SkeletonCount) && d.View().stamp == None;
    d.Settle(Threw(reason), Timestamp(now.millis + 1));
    assert d.View().grid == Cards(items);
    assert d.View().banner == Some(LoadFailedMessage) && d.View().stamp == Some(now);
  }
}
