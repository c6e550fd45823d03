/**
 * The public news section: active banners fetched from the server, each shown as an image
 * or a video with its update date.
 */
module News {
  import opened Wrappers
  import opened Text
  import opened Language

  datatype NewsItem = NewsItem(
    id: string, title: string, description: string,
    updateDate: string, mediaUrl: string, mediaType: string)

  datatype MediaKind = Image | Video

  const VideoType := "video"
  const VideoTypeUpper := "VIDEO"

  /** `getMediaType`: a video exactly when the type, lower-cased, is `video`, that is, when it
      is five characters spelling `video` with each letter in either case; everything else,
      `rasm` included, is an image. */
  function GetMediaType(mediaType: string): (r: MediaKind)
    ensures r == Video <==>
      |mediaType| == 5 &&
      forall i :: 0 <= i < 5 ==> mediaType[i] == VideoType[i] || mediaType[i] == VideoTypeUpper[i]
  {
    SpellsVideo(mediaType);
    if Lower(mediaType) == VideoType then Video else Image
  }

  /** The strings that lower-case to `video`. */
  lemma SpellsVideo(mediaType: string)
    ensures Lower(mediaType) == VideoType <==>
      |mediaType| == 5 &&
      forall i :: 0 <= i < 5 ==> mediaType[i] == VideoType[i] || mediaType[i] == VideoTypeUpper[i]
  {
    assert VideoType == ['v', 'i', 'd', 'e', 'o'];
    assert VideoTypeUpper == ['V', 'I', 'D', 'E', 'O'];
    var lower := Lower(mediaType);
    if |mediaType| == 5 {
      forall i | 0 <= i < 5
        ensures lower[i] == VideoType[i] <==> mediaType[i] == VideoType[i] || mediaType[i] == VideoTypeUpper[i]
      {
        var c := mediaType[i];
        assert lower[i] == LowerChar(c);
      }
      if forall i :: 0 <= i < 5 ==> lower[i] == VideoType[i] {
        assert lower == VideoType;
      }
    }
  }

  /** Two type strings that lower-case alike are classified alike. */
  lemma GetMediaTypeIgnoresCase(t: string, u: string)
    requires Lower(t) == Lower(u)
    ensures GetMediaType(t) == GetMediaType(u)
  {
  }

  const HttpPrefix := "http"

  /** `resolveUrl`: an absolute address is used as it is; anything else is taken as a path
      on the API server `base`. */
  function ResolveUrl(base: string, url: string): (r: string)
    ensures StartsWith(url, HttpPrefix) ==> r == url
    ensures !StartsWith(url, HttpPrefix) ==> r == base + url
    ensures |r| >= |url| && r[|r| - |url|..] == url
  {
    if StartsWith(url, HttpPrefix) then url else base + url
  }

  /** When the API base address itself starts with `http`, a resolved address is left as it
      is by a second resolution. */
  lemma ResolveUrlIdempotent(base: string, url: string)
    requires StartsWith(base, HttpPrefix)
    ensures ResolveUrl(base, ResolveUrl(base, url)) == ResolveUrl(base, url)
  {
    if !StartsWith(url, HttpPrefix) {
      assert (base + url)[..|HttpPrefix|] == base[..|HttpPrefix|];
    }
  }

  /** The locale `formatDate` renders in for each interface language. */
  function LocaleTag(lang: Lang): string {
    match lang
    case Uz => "uz-UZ"
    case Ru => "ru-RU"
    case En => "en-US"
  }

  /** A date as shown: a dash, or the date string rendered by `toLocaleString` in a locale. */
  datatype ShownDate = Dash | Localized(locale: string, date: string)

  /** `formatDate`: a dash for an empty date, the localized rendering otherwise. */
  function FormatDate(dateString: string, lang: Lang): (r: ShownDate)
    ensures r == Dash <==> dateString == ""
    ensures r.Localized? ==> r.date == dateString && r.locale == LocaleTag(lang)
  {
    if dateString == "" then Dash else Localized(LocaleTag(lang), dateString)
  }

  /** The `value` object of the reply, whose `$values` array holds the banners. */
  datatype BannerPage = BannerPage(values: Option<seq<NewsItem>>)

  /** What the fetch produced: a failure of `fetch` or of reading the JSON body, or the
      body's `isSuccess` flag and `value` object, if any. */
  datatype Reply = Failed | Answered(isSuccess: bool, value: Option<BannerPage>)

  /** The list a reply delivers, if it is accepted: only a successful reply that carries
      `value.$values` delivers one. */
  function Delivered(reply: Reply): (r: Option<seq<NewsItem>>)
    ensures r.Some? <==> reply.Answered? && reply.isSuccess && reply.value.Some? && reply.value.value.values.Some?
    ensures r.Some? ==> r.value == reply.value.value.values.value
  {
    match reply
    case Failed => None
    case Answered(isSuccess, value) =>
      if isSuccess && value.Some? then value.value.values else None
  }

  /** The state of the news section. */
  class NewsSection {
    var newsList: seq<NewsItem>
    var selectedNews: Option<NewsItem>
    var loading: bool

    /** The section as it mounts: no news, nothing open, loading. */
    constructor ()
      ensures newsList == [] && selectedNews == None && loading
    {
      newsList := [];
      selectedNews := None;
      loading := true;
    }

    /** The part of `fetchNews` before the request is awaited. */
    method BeginFetch()
      modifies this`loading
      ensures loading
    {
      loading := true;
    }

    /** The part of `fetchNews` after the reply: the list is replaced only by an accepted
        reply and kept otherwise; loading ends whatever the outcome. */
    method FinishFetch(reply: Reply)
      modifies this`newsList, this`loading
      ensures newsList == Delivered(reply).GetOr(old(newsList))
      ensures !loading
    {
      var delivered := Delivered(reply);
      if delivered.Some? {
        newsList := delivered.value;
      }
      loading := false;
    }

    method SelectNews(item: NewsItem)
      modifies this`selectedNews
      ensures selectedNews == Some(item)
    {
      selectedNews := Some(item);
    }

    method CloseNews()
      modifies this`selectedNews
      ensures selectedNews == None
    {
      selectedNews := None;
    }
  }
}
