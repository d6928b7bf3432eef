/**
 * src/screens/HomeScreen.jsx: the home page load (ads, news, media), the
 * headline taken off the news list, and the news sheet.
 */
module HomeScreen {
  import opened Wrappers
  import Json
  import FormData
  import AxiosInstance
  import Validation

  /**
   * A JavaScript array the reply and the screen share: `setNews(list)`
   * keeps a reference to the same array that `list.pop()` then shortens.
   */
  class JsArray {
    var elems: seq<Json.Object>

    constructor (elems: seq<Json.Object>)
      ensures this.elems == elems
    {
      this.elems := elems;
    }

    /** `pop()`: removes and returns the last element; `undefined` on an empty array. */
    method Pop() returns (last: Option<Json.Object>)
      modifies this
      ensures last == Last(old(elems))
      ensures elems == AllButLast(old(elems))
    {
      if elems == [] {
        last := None;
      } else {
        last := Some(elems[|elems| - 1]);
        elems := elems[..|elems| - 1];
      }
    }
  }

  function Last(s: seq<Json.Object>): (r: Option<Json.Object>)
    ensures r.None? <==> s == []
    ensures r.Some? ==> r.value in s
  {
    if s == [] then None else Some(s[|s| - 1])
  }

  function AllButLast(s: seq<Json.Object>): (r: seq<Json.Object>)
    ensures |r| == if s == [] then 0 else |s| - 1
  {
    if s == [] then [] else s[..|s| - 1]
  }

  /** Popping loses nothing: the rest followed by the popped element is the whole list. */
  lemma PopSplits(s: seq<Json.Object>)
    requires s != []
    ensures AllButLast(s) + [Last(s).value] == s
  {
  }

  /** The home reply's `data`: the ads, the news array and the media. */
  datatype HomeData = HomeData(ads: seq<Json.Object>, news: JsArray, media: seq<Json.Object>)

  datatype HomeBody = HomeBody(data: Option<HomeData>)

  /** The reply's data when the `.then` callback gets to read it. */
  function Loaded(reply: AxiosInstance.Settled<HomeBody>): (d: Option<HomeData>)
    ensures d.Some? ==> AxiosInstance.Delivered(reply).Some? && AxiosInstance.Delivered(reply).value.data == d
  {
    match AxiosInstance.Delivered(reply)
    case Some(body) => body.data
    case None => None
  }

  function NewsArrays(reply: AxiosInstance.Settled<HomeBody>): set<JsArray> {
    if Loaded(reply).Some? then {Loaded(reply).value.news} else {}
  }

  /** What the headline slot of the page does when it renders. */
  datatype Render = Crashes | Shows(item: Json.Object) | Hidden

  /**
   * The headline slot as written: `newsHome.itemTitle &&` on a value that
   * is `undefined` after popping an empty news list throws during render.
   */
  function RenderHeadlineAsWritten(newsHome: Option<Json.Object>): Render {
    match newsHome
    case None => Crashes
    case Some(item) => if Validation.Required(Json.Get(item, "itemTitle")) then Shows(item) else Hidden
  }

  /** A home reply whose news list is empty crashes the page as written. */
  lemma EmptyNewsCrashesAsWritten()
    ensures RenderHeadlineAsWritten(Last([])) == Crashes
  {
  }

  /** The headline after a load, as intended: the popped item, or `{}` when there was none. */
  function HeadlineAfterLoad(news: seq<Json.Object>): Json.Object {
    Last(news).GetOr([])
  }

  /** The headline slot on an object: shown when the item has a title. */
  function RenderHeadline(newsHome: Json.Object): (r: Render)
    ensures r != Crashes
    ensures r.Shows? <==> Validation.Required(Json.Get(newsHome, "itemTitle"))
    ensures r.Shows? ==> r.item == newsHome
  {
    if Validation.Required(Json.Get(newsHome, "itemTitle")) then Shows(newsHome) else Hidden
  }

  /**
   * After any load the page renders: the headline is the last news item
   * when it has a title, and with no news nothing is shown.
   */
  lemma HeadlineNeverCrashes(news: seq<Json.Object>)
    ensures RenderHeadline(HeadlineAfterLoad(news)) != Crashes
    ensures news == [] ==> RenderHeadline(HeadlineAfterLoad(news)) == Hidden
    ensures news != [] && Validation.Required(Json.Get(news[|news| - 1], "itemTitle")) ==>
              RenderHeadline(HeadlineAfterLoad(news)) == Shows(news[|news| - 1])
  {
  }

  /** Where the old code rendered at all, the corrected headline renders the same. */
  lemma CorrectionAgreesWhenNewsExists(news: seq<Json.Object>)
    requires news != []
    ensures RenderHeadlineAsWritten(Last(news)) == RenderHeadline(HeadlineAfterLoad(news))
  {
  }

  class Screen {
    var isLoading: bool
    var ads: seq<Json.Object>
    /** The same array object as the last reply's news list. */
    var news: JsArray
    var media: seq<Json.Object>
    var newsHome: Json.Object
    var newsItem: Json.Object

    constructor ()
      ensures !isLoading && ads == [] && news.elems == [] && media == [] && newsHome == [] && newsItem == []
      ensures fresh(news)
    {
      isLoading := false;
      ads := [];
      news := new JsArray([]);
      media := [];
      newsHome := [];
      newsItem := [];
    }

    /**
     * `getHomeData()`: with data in the reply the screen takes the ads,
     * the news array itself and the media, then pops the headline off that
     * array, so the kept news list no longer holds the headline. The
     * headline is the popped item; an empty news array leaves an empty
     * item where the code keeps `undefined` (see `RenderHeadlineAsWritten`).
     */
    method GetHomeData(user: Json.Object, reply: AxiosInstance.Settled<HomeBody>)
      returns (request: seq<FormData.Entry>)
      modifies this`isLoading, this`ads, this`news, this`media, this`newsHome, NewsArrays(reply)
      ensures request == FormData.SessionEntries(user)
      ensures Loaded(reply).Some? ==>
        var d := Loaded(reply).value;
        && ads == d.ads && media == d.media && news == d.news
        && news.elems == AllButLast(old(d.news.elems))
        && newsHome == HeadlineAfterLoad(old(d.news.elems))
      ensures Loaded(reply).Some? && old(Loaded(reply).value.news.elems) != [] ==>
        var e := old(Loaded(reply).value.news.elems);
        newsHome == e[|e| - 1]
      ensures Loaded(reply).None? ==>
        ads == old(ads) && media == old(media) && news == old(news) && newsHome == old(newsHome)
      ensures !isLoading
    {
      isLoading := true;
      request := FormData.SessionEntries(user);
      var loaded := Loaded(reply);
      if loaded.Some? {
        var d := loaded.value;
        ads := d.ads;
        news := d.news;
        media := d.media;
        var headline := d.news.Pop();
        newsHome := headline.GetOr([]);
      }
      isLoading := false;
    }

    /** Pressing the headline opens the sheet on that item. */
    method OpenNewsItem(item: Json.Object)
      modifies this`newsItem
      ensures newsItem == item
    {
      newsItem := item;
    }
  }
}
