/**
 * The bot's tools (main.py lines 71-114): the web search, which rotates the
 * search key pool the way `ask_gemini` rotates the model keys, filters the
 * returned items and renders them as a text digest plus a list of links; and
 * the image generator, which only builds a URL.
 */
module Tools {
  import opened Wrappers
  import opened Strings
  import opened Lists
  import opened KeyPools
  import opened Rotation

  // ---------------------------------------------------------------- request

  /** The search types that ask for results from the last day only (line 85). */
  predicate Fresh(searchType: string)
  {
    searchType in ["PRICE", "NEWS"]
  }

  /** Lines 80-86: the query parameters of one search request made with `key`. */
  function SearchParams(query: string, key: string, cx: string, searchType: string): (params: map<string, string>)
    ensures params.Keys == {"q", "key", "cx", "safe"} + (if Fresh(searchType) then {"dateRestrict"} else {})
    ensures params["q"] == query && params["key"] == key && params["cx"] == cx && params["safe"] == "off"
    ensures "dateRestrict" in params ==> params["dateRestrict"] == "d1"
  {
    var base := map["q" := query, "key" := key, "cx" := cx, "safe" := "off"];
    if Fresh(searchType) then base["dateRestrict" := "d1"] else base
  }

  /** Only price and news searches are restricted to the last 24 hours. */
  lemma FreshnessOnlyForPriceAndNews(query: string, key: string, cx: string, searchType: string)
    ensures "dateRestrict" in SearchParams(query, key, cx, searchType)
            <==> searchType == "PRICE" || searchType == "NEWS"
  {
    var params := SearchParams(query, key, cx, searchType);
    if searchType == "PRICE" || searchType == "NEWS" {
      assert Fresh(searchType);
    } else {
      assert !Fresh(searchType);
      assert "dateRestrict" !in {"q", "key", "cx", "safe"};
    }
  }

  // ---------------------------------------------------------------- items

  /** One entry of the response's `items` list; a field may be missing. */
  datatype RawItem = RawItem(title: Option<string>, link: Option<string>, snippet: Option<string>)

  /** An item with its fields read as lines 97-99 read them. */
  datatype Item = Item(title: string, link: string, snippet: string)

  /** `{'title': title, 'link': link}` as appended at line 107. */
  datatype Link = Link(title: string, url: string)

  /** Lines 97-99: `item.get('title', 'No Title')`, `item.get('link', '')`, `item.get('snippet', '')`. */
  function WithDefaults(raw: RawItem): (it: Item)
    ensures raw.title.None? ==> it.title == "No Title"
    ensures raw.title.Some? ==> it.title == raw.title.value
    ensures it.link == raw.link.GetOr("") && it.snippet == raw.snippet.GetOr("")
  {
    Item(raw.title.GetOr("No Title"), raw.link.GetOr(""), raw.snippet.GetOr(""))
  }

  function Defaulted(raws: seq<RawItem>): (items: seq<Item>)
    ensures |items| == |raws|
    ensures forall i :: 0 <= i < |raws| ==> items[i] == WithDefaults(raws[i])
  {
    seq(|raws|, i requires 0 <= i < |raws| => WithDefaults(raws[i]))
  }

  /**
   * Lines 102-104: a Telegram link search drops items whose link is not on
   * t.me, and contact pages whose snippet is shorter than 15 characters;
   * every other search type keeps every item.
   */
  predicate Admitted(it: Item, searchType: string)
  {
    searchType == "LINK_TELEGRAM" ==>
      && Contains(it.link, "t.me")
      && !(Contains(it.title, "Telegram: Contact") && |it.snippet| < 15)
  }

  /** The items that reach line 106, in response order. */
  function Kept(raws: seq<RawItem>, searchType: string): (kept: seq<Item>)
    ensures forall it :: it in kept ==> Admitted(it, searchType)
  {
    Filter(Defaulted(raws), AdmitFor(searchType))
  }

  function AdmitFor(searchType: string): Item -> bool
  {
    it => Admitted(it, searchType)
  }

  /**
   * The filter keeps exactly the admitted items, in response order, and a
   * search other than a Telegram link search keeps them all.
   */
  lemma KeptExactly(raws: seq<RawItem>, searchType: string)
    ensures IsSubsequence(Kept(raws, searchType), Defaulted(raws))
    ensures forall i :: 0 <= i < |raws| && Admitted(WithDefaults(raws[i]), searchType) ==>
              WithDefaults(raws[i]) in Kept(raws, searchType)
    ensures searchType != "LINK_TELEGRAM" ==> Kept(raws, searchType) == Defaulted(raws)
  {
    var keep := AdmitFor(searchType);
    var items := Defaulted(raws);
    FilterSubsequence(items, keep);
    forall i | 0 <= i < |raws| && Admitted(WithDefaults(raws[i]), searchType)
      ensures WithDefaults(raws[i]) in Kept(raws, searchType)
    {
      FilterComplete(items, keep, i);
    }
    if searchType != "LINK_TELEGRAM" {
      FilterAll(items, keep);
    }
  }

  // ---------------------------------------------------------------- rendering

  /** Line 106: one item of the digest. */
  function Block(it: Item): string
  {
    "SOURCE: " + it.title + "\nDETAILS: " + it.snippet + "\nLINK: " + it.link + "\n\n"
  }

  /** `results_text` after the loop of lines 96-107 has appended the block of every item. */
  function Digest(items: seq<Item>): string
  {
    if items == [] then "" else Digest(items[..|items| - 1]) + Block(items[|items| - 1])
  }

  /** `links` after the same loop. */
  function LinksOf(items: seq<Item>): (links: seq<Link>)
    ensures |links| == |items|
    ensures forall i :: 0 <= i < |items| ==> links[i] == Link(items[i].title, items[i].link)
  {
    seq(|items|, i requires 0 <= i < |items| => Link(items[i].title, items[i].link))
  }

  lemma DigestSnoc(items: seq<Item>, it: Item)
    ensures Digest(items + [it]) == Digest(items) + Block(it)
  {
    assert (items + [it])[..|items|] == items;
  }

  lemma LinksOfSnoc(items: seq<Item>, it: Item)
    ensures LinksOf(items + [it]) == LinksOf(items) + [Link(it.title, it.link)]
  {
    var l, r := LinksOf(items + [it]), LinksOf(items) + [Link(it.title, it.link)];
    assert |l| == |r|;
    forall i | 0 <= i < |l| ensures l[i] == r[i] {
      if i < |items| {
        assert (items + [it])[i] == items[i];
      }
    }
  }

  /** The digest of two runs of items is the two digests one after the other. */
  lemma {:induction false} DigestConcat(a: seq<Item>, b: seq<Item>)
    ensures Digest(a + b) == Digest(a) + Digest(b)
    decreases |b|
  {
    if b == [] {
      assert a + b == a;
    } else {
      var n := |b| - 1;
      assert a + b == (a + b[..n]) + [b[n]];
      assert b == b[..n] + [b[n]];
      DigestConcat(a, b[..n]);
      DigestSnoc(a + b[..n], b[n]);
      DigestSnoc(b[..n], b[n]);
    }
  }

  /** The digest is empty exactly when no item was kept: every block is non-empty. */
  lemma {:induction false} DigestEmpty(items: seq<Item>)
    ensures Digest(items) == "" <==> items == []
  {
    if items != [] {
      assert |Block(items[|items| - 1])| > 0;
    }
  }

  /** What a search call returns on success: the digest and the links. */
  datatype Found = Found(digest: string, links: seq<Link>)

  /** Lines 93-107 over the items of one response. */
  method Collect(raws: seq<RawItem>, searchType: string) returns (text: string, links: seq<Link>)
    ensures text == Digest(Kept(raws, searchType))
    ensures links == LinksOf(Kept(raws, searchType))
  {
    text, links := "", [];
    for i := 0 to |raws|
      invariant text == Digest(Kept(raws[..i], searchType))
      invariant links == LinksOf(Kept(raws[..i], searchType))
    {
      assert raws[..i + 1][..i] == raws[..i];
      var it := WithDefaults(raws[i]);
      ghost var kept := Kept(raws[..i], searchType);
      assert Defaulted(raws[..i + 1]) == Defaulted(raws[..i]) + [it];
      FilterSnoc(Defaulted(raws[..i]), it, AdmitFor(searchType));
      if searchType == "LINK_TELEGRAM" {
        if !Contains(it.link, "t.me") {
          assert kept + [] == kept;
          continue;
        }
        if Contains(it.title, "Telegram: Contact") && |it.snippet| < 15 {
          assert kept + [] == kept;
          continue;
        }
      }
      DigestSnoc(kept, it);
      LinksOfSnoc(kept, it);
      text := text + Block(it);
      links := links + [Link(it.title, it.link)];
    }
    assert raws[..|raws|] == raws;
  }

  // ---------------------------------------------------------------- search

  /**
   * One pass of the loop body (lines 79-110) with `key`. `fetch` is the HTTP
   * request and the decoding of its body: `None` when either raised or the
   * body has no `items`.
   */
  function SearchAttempt(key: string, cx: string, query: string, searchType: string,
                         fetch: map<string, string> -> Option<seq<RawItem>>): (r: Option<Found>)
    ensures r.Some? <==> fetch(SearchParams(query, key, cx, searchType)).Some?
  {
    match fetch(SearchParams(query, key, cx, searchType))
    case None => None
    case Some(raws) =>
      var kept := Kept(raws, searchType);
      Some(Found(Digest(kept), LinksOf(kept)))
  }

  function SearchAttempts(cx: string, query: string, searchType: string,
                          fetch: map<string, string> -> Option<seq<RawItem>>): (nat, string) -> Option<Found>
  {
    (i: nat, key: string) => SearchAttempt(key, cx, query, searchType, fetch)
  }

  /** A successful Telegram search returns only t.me links. */
  lemma TelegramLinksOnly(key: string, cx: string, query: string,
                          fetch: map<string, string> -> Option<seq<RawItem>>)
    ensures var r := SearchAttempt(key, cx, query, "LINK_TELEGRAM", fetch);
            r.Some? ==> forall l :: l in r.value.links ==> Contains(l.url, "t.me")
  {
    var r := SearchAttempt(key, cx, query, "LINK_TELEGRAM", fetch);
    if r.Some? {
      var kept := Kept(fetch(SearchParams(query, key, cx, "LINK_TELEGRAM")).value, "LINK_TELEGRAM");
      forall l | l in r.value.links ensures Contains(l.url, "t.me") {
        var i :| 0 <= i < |r.value.links| && r.value.links[i] == l;
        assert kept[i] in kept;
      }
    }
  }

  /**
   * What `tool_google_search` returns when the pool, in the order it is tried,
   * is `keys`: `(None, [])` without keys or engine id, or when every key fails.
   */
  function Search(keys: seq<string>, cx: string, query: string, searchType: string,
                  fetch: map<string, string> -> Option<seq<RawItem>>): (Option<string>, seq<Link>)
  {
    if keys == [] || cx == "" then (None, [])
    else match Rotate(keys, SearchAttempts(cx, query, searchType, fetch)).result
      case None => (None, [])
      case Some(found) => (Some(found.digest), found.links)
  }

  /** A Telegram link search returns only t.me links, whichever key answers. */
  lemma SearchTelegramLinksOnly(keys: seq<string>, cx: string, query: string,
                                fetch: map<string, string> -> Option<seq<RawItem>>)
    ensures forall l :: l in Search(keys, cx, query, "LINK_TELEGRAM", fetch).1 ==> Contains(l.url, "t.me")
  {
    var attempt := SearchAttempts(cx, query, "LINK_TELEGRAM", fetch);
    var run := Rotate(keys, attempt);
    if keys != [] && cx != "" && run.result.Some? {
      RotateFirstSuccess(keys, attempt);
      var key := keys[run.tried - 1];
      assert attempt(run.tried - 1, key) == SearchAttempt(key, cx, query, "LINK_TELEGRAM", fetch);
      TelegramLinksOnly(key, cx, query, fetch);
    }
  }

  /**
   * `tool_google_search(query, search_type)`. `requests` lists the parameters
   * of every request made, in order.
   */
  method ToolGoogleSearch(pool: KeyPool, cx: string, query: string, searchType: string,
                          randbelow: nat -> nat,
                          fetch: map<string, string> -> Option<seq<RawItem>>)
    returns (digest: Option<string>, links: seq<Link>, requests: seq<map<string, string>>)
    requires pool.Valid() && RandBelow(randbelow)
    modifies pool
    ensures pool.Valid()
    ensures |pool.keys| == |old(pool.keys)| && multiset(pool.keys) == multiset(old(pool.keys))
    ensures old(pool.keys) == [] || cx == "" ==>
              digest == None && links == [] && requests == [] && pool.keys == old(pool.keys)
    ensures var run := Rotate(pool.keys, SearchAttempts(cx, query, searchType, fetch));
            old(pool.keys) != [] && cx != "" ==>
              && |requests| == run.tried
              && (run.result.None? ==> digest == None && links == [])
              && (run.result.Some? ==> digest == Some(run.result.value.digest) && links == run.result.value.links)
    ensures forall i :: 0 <= i < |requests| ==> requests[i] == SearchParams(query, pool.keys[i], cx, searchType)
    ensures searchType == "LINK_TELEGRAM" ==> forall l :: l in links ==> Contains(l.url, "t.me")
    ensures (digest, links) == Search(pool.keys, cx, query, searchType, fetch)
  {
    if pool.keys == [] || cx == "" {
      return None, [], [];
    }
    pool.Shuffle(randbelow);
    digest, links, requests := TrySearchKeys(pool.keys, cx, query, searchType, fetch);
  }

  /** Lines 78-111, the `for key in ACTIVE_SEARCH_KEYS` loop over the pool as shuffled. */
  method TrySearchKeys(keys: seq<string>, cx: string, query: string, searchType: string,
                       fetch: map<string, string> -> Option<seq<RawItem>>)
    returns (digest: Option<string>, links: seq<Link>, requests: seq<map<string, string>>)
    ensures var run := Rotate(keys, SearchAttempts(cx, query, searchType, fetch));
            && |requests| == run.tried
            && (run.result.None? ==> digest == None && links == [])
            && (run.result.Some? ==> digest == Some(run.result.value.digest) && links == run.result.value.links)
    ensures forall i :: 0 <= i < |requests| ==> requests[i] == SearchParams(query, keys[i], cx, searchType)
    ensures searchType == "LINK_TELEGRAM" ==> forall l :: l in links ==> Contains(l.url, "t.me")
  {
    digest, links, requests := None, [], [];
    ghost var attempt := SearchAttempts(cx, query, searchType, fetch);
    var i := 0;
    while i < |keys|
      invariant 0 <= i <= |keys|
      invariant Rotate(keys, attempt) == RunFrom(keys, i, attempt)
      invariant digest == None && links == [] && |requests| == i
      invariant forall k :: 0 <= k < i ==> requests[k] == SearchParams(query, keys[k], cx, searchType)
    {
      var key := keys[i];
      var params := SearchParams(query, key, cx, searchType);
      ghost var before := requests;
      requests := requests + [params];
      forall k | 0 <= k < i + 1 ensures requests[k] == SearchParams(query, keys[k], cx, searchType) {
        if k < i {
          assert requests[k] == before[k];
        }
      }
      var response := fetch(params);
      RunFromStep(keys, i, attempt);
      if response.Some? {
        var text, found := Collect(response.value, searchType);
        assert attempt(i, key) == Some(Found(text, found));
        if searchType == "LINK_TELEGRAM" {
          TelegramLinksOnly(key, cx, query, fetch);
        }
        return Some(text), found, requests;
      }
      assert attempt(i, key) == None;
      i := i + 1;
    }
  }

  // ---------------------------------------------------------------- images

  const ImageBase := "https://image.pollinations.ai/prompt/"

  /** Line 114: the image is whatever the generator serves at this URL. */
  function ImageUrl(prompt: string): (url: string)
    ensures |url| == |ImageBase| + |prompt|
    ensures url[..|ImageBase|] == ImageBase && url[|ImageBase|..] == prompt
  {
    ImageBase + prompt
  }

  /** Reads the prompt back out of a generator URL. */
  function PromptOf(url: string): Option<string>
  {
    if |ImageBase| <= |url| && url[..|ImageBase|] == ImageBase then Some(url[|ImageBase|..]) else None
  }

  /** The URL carries the prompt unchanged, and every generator URL is the URL of its prompt. */
  lemma ImageUrlRoundTrip(prompt: string, url: string)
    ensures PromptOf(ImageUrl(prompt)) == Some(prompt)
    ensures PromptOf(url) == Some(prompt) ==> ImageUrl(prompt) == url
  {
    if PromptOf(url) == Some(prompt) {
      assert url == url[..|ImageBase|] + url[|ImageBase|..];
    }
  }
}
