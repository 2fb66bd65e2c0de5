/**
 * The records the dashboard passes around: a news item as the provider
 * returns it, the outlets it knows of, and the outcome of one fetch.
 */
module Types {

  datatype Option<+T> = None | Some(value: T)

  /** One news item. `imageUrl` is the only optional field of the record. */
  datatype NewsItem = NewsItem(
    id: string,
    title: string,
    summary: string,
    url: string,
    source: string,
    category: string,
    publishedAt: string,
    imageUrl: Option<string>)

  /** The five outlets the dashboard follows; `Name` is the enum's string value. */
  datatype Newspaper = Clarin | LaNacion | Infobae | Pagina12 | Ambito
  {
    function Name(): (s: string)
      ensures s != []
    {
      match this
      case Clarin => "Clarín"
      case LaNacion => "La Nación"
      case Infobae => "Infobae"
      case Pagina12 => "Página/12"
      case Ambito => "Ámbito Financiero"
    }
  }

  /** A search citation returned next to the answer; passed through untouched. */
  datatype GroundingChunk = GroundingChunk(web: Option<WebReference>)
  datatype WebReference = WebReference(uri: string, title: string)

  /** What a successful fetch hands back: the items in the provider's order. */
  datatype FetchResult = FetchResult(news: seq<NewsItem>, sources: seq<GroundingChunk>)

  /** Why a fetch threw: no credential configured, or the call or its parse failed. */
  datatype FetchError = MissingApiKey | ProviderFailure(message: string)

  /** The settled outcome of the one awaited call of a refresh. */
  datatype FetchOutcome = Fetched(result: FetchResult) | Threw(error: FetchError)

  /** The moment `new Date()` took when a refresh succeeded, in milliseconds. */
  datatype Timestamp = Timestamp(millis: int)
}
