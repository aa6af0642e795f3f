/**
 * The scheduled vector-store updater (`VectorDBUpdater`): which scraped
 * documents it keeps, when it retries without CSS selectors, when it falls
 * back to a plain HTTP request, how it tags chunks before storing them, and
 * when an update cycle counts as a success.
 *
 * The web loader, the HTTP request, the text splitter, the vector store and
 * the clock are outside the model; each enters as a parameter.
 */
module Updater {
  import opened Wrappers
  import opened Text
  import opened Chatbot

  /** The pages scraped on every cycle, in order. */
  const GreekDerbyUrls: seq<string> := [
    "https://www.gazzetta.gr/football/superleague/olympiakos",
    "https://www.gazzetta.gr/football/superleague/panathinaikos",
    "https://www.gazzetta.gr/football/superleague",
    "https://www.gazzetta.gr"
  ]

  /** The page fetched by the last-resort fallback. */
  const SuperleagueUrl := "https://www.gazzetta.gr/football/superleague"

  /** Stripped length a document must exceed to be kept. */
  const MinValidLength := 50
  /** Stripped length below which a document counts as having no real content. */
  const SubstantialLength := 100

  const DefaultSource := "gazzetta.gr"
  const NewsType := "greek_derby_news"
  const BatchPrefix := "batch_"

  /**
   * The web loader: `load(url, true)` loads with the article CSS selectors,
   * `load(url, false)` without them; `Err` stands for a load that raised.
   */
  type Loader = (string, bool) -> Result<seq<Document>>

  /** The answer of the fallback `requests.get`. */
  datatype HttpReply = HttpReply(statusCode: int, text: string)

  /** One call the updater makes to the outside world while loading. */
  datatype Call = Load(url: string, filtered: bool) | Fetch(url: string)

  /** What `load_fresh_content` has gathered: documents and the URLs they came from. */
  datatype Gathered = Gathered(docs: seq<Document>, urls: seq<string>)

  // ----- filters -----

  predicate IsValid(d: Document) {
    |Strip(d.pageContent)| > MinValidLength
  }

  predicate IsShort(d: Document) {
    |Strip(d.pageContent)| < SubstantialLength
  }

  /** `not docs or all(len(doc.page_content.strip()) < 100 for doc in docs)`. */
  predicate LacksSubstance(docs: seq<Document>) {
    docs == [] || forall i :: 0 <= i < |docs| ==> IsShort(docs[i])
  }

  /** `valid_docs`: the documents whose stripped content is longer than 50 characters, in order. */
  function ValidDocs(docs: seq<Document>): (r: seq<Document>)
    ensures |r| <= |docs|
    ensures forall d :: d in r <==> d in docs && IsValid(d)
  {
    if docs == [] then []
    else
      var rest := ValidDocs(docs[..|docs| - 1]);
      var d := docs[|docs| - 1];
      assert docs == docs[..|docs| - 1] + [d];
      if IsValid(d) then rest + [d] else rest
  }

  /** The filter works document by document, so it keeps the original order. */
  lemma {:induction false} ValidDocsAppend(a: seq<Document>, b: seq<Document>)
    ensures ValidDocs(a + b) == ValidDocs(a) + ValidDocs(b)
    decreases |b|
  {
    if b == [] {
      assert a + b == a;
    } else {
      var b' := b[..|b| - 1];
      assert (a + b)[..|a + b| - 1] == a + b';
      assert (a + b)[|a + b| - 1] == b[|b| - 1];
      ValidDocsAppend(a, b');
    }
  }

  /** A single document is kept exactly when it is valid. */
  lemma ValidDocsSingle(d: Document)
    ensures ValidDocs([d]) == if IsValid(d) then [d] else []
  {
    assert [d][..0] == [];
  }

  // ----- one URL -----

  /**
   * The documents kept from one URL, or `None` when one of its loads raised
   * (the URL is then skipped).
   */
  function UrlDocs(url: string, load: Loader): Option<seq<Document>> {
    match load(url, true)
    case Err(_) => None
    case Ok(docs) =>
      if LacksSubstance(docs) then
        match load(url, false)
        case Err(_) => None
        case Ok(unfiltered) => Some(ValidDocs(unfiltered))
      else Some(ValidDocs(docs))
  }

  /** Whether `url` is appended to `successful_urls`. */
  predicate Succeeds(url: string, load: Loader) {
    UrlDocs(url, load).Some? && UrlDocs(url, load).value != []
  }

  /** The loader calls made for one URL. */
  function UrlCalls(url: string, load: Loader): seq<Call> {
    [Load(url, true)] + if load(url, true).Ok? && LacksSubstance(load(url, true).value) then [Load(url, false)] else []
  }

  // ----- the URL loop -----

  /** What the URL loop has gathered after the URLs `urls`. */
  function Collected(urls: seq<string>, load: Loader): (r: Gathered)
    ensures |r.urls| <= |urls|
  {
    if urls == [] then Gathered([], [])
    else
      var prev := Collected(urls[..|urls| - 1], load);
      var u := urls[|urls| - 1];
      assert urls == urls[..|urls| - 1] + [u];
      Step(prev, u, load)
  }

  /** One pass of the URL loop: append `url`'s documents when it succeeds. */
  function Step(g: Gathered, url: string, load: Loader): Gathered {
    if Succeeds(url, load) then Gathered(g.docs + UrlDocs(url, load).value, g.urls + [url]) else g
  }

  /** The loader calls made by the URL loop, in order. */
  function CollectCalls(urls: seq<string>, load: Loader): (r: seq<Call>)
    ensures forall c :: c in r ==> c.Load?
  {
    if urls == [] then []
    else CollectCalls(urls[..|urls| - 1], load) + UrlCalls(urls[|urls| - 1], load)
  }

  /** Two gatherings one after the other. */
  function Concat(x: Gathered, y: Gathered): Gathered {
    Gathered(x.docs + y.docs, x.urls + y.urls)
  }

  lemma StepAfterConcat(x: Gathered, y: Gathered, url: string, load: Loader)
    ensures Step(Concat(x, y), url, load) == Concat(x, Step(y, url, load))
  {
    if Succeeds(url, load) {
      var v := UrlDocs(url, load).value;
      assert x.docs + y.docs + v == x.docs + (y.docs + v);
      assert x.urls + y.urls + [url] == x.urls + (y.urls + [url]);
    }
  }

  /** A URL that fails or yields nothing does not stop the loop: later URLs are gathered all the same. */
  lemma {:induction false} CollectedAppend(a: seq<string>, b: seq<string>, load: Loader)
    ensures Collected(a + b, load) == Concat(Collected(a, load), Collected(b, load))
    decreases |b|
  {
    if b == [] {
      assert a + b == a;
      assert Collected(a, load).docs + [] == Collected(a, load).docs;
      assert Collected(a, load).urls + [] == Collected(a, load).urls;
    } else {
      var b', u := b[..|b| - 1], b[|b| - 1];
      assert (a + b)[..|a + b| - 1] == a + b';
      assert (a + b)[|a + b| - 1] == u;
      CollectedAppend(a, b', load);
      StepAfterConcat(Collected(a, load), Collected(b', load), u, load);
    }
  }

  /** A URL is recorded as successful exactly when it yielded at least one valid document. */
  lemma {:induction false} SuccessfulUrlsIff(urls: seq<string>, u: string, load: Loader)
    ensures u in Collected(urls, load).urls <==> u in urls && Succeeds(u, load)
    decreases |urls|
  {
    if urls != [] {
      var prefix, last := urls[..|urls| - 1], urls[|urls| - 1];
      assert urls == prefix + [last];
      SuccessfulUrlsIff(prefix, u, load);
      assert u in urls <==> u in prefix || u == last;
    }
  }

  /** Every gathered document is valid. */
  lemma {:induction false} CollectedValid(urls: seq<string>, load: Loader)
    ensures forall d :: d in Collected(urls, load).docs ==> IsValid(d)
    decreases |urls|
  {
    if urls != [] {
      CollectedValid(urls[..|urls| - 1], load);
    }
  }

  /** A URL whose load raises contributes nothing. */
  lemma RaisingUrlSkipped(url: string, load: Loader)
    requires load(url, true).Err? || (LacksSubstance(load(url, true).value) && load(url, false).Err?)
    ensures Collected([url], load) == Gathered([], [])
  {
    assert [url][..0] == [];
  }

  /**
   * The unfiltered reload for a URL happens exactly when its first load
   * returned nothing or only short documents.
   */
  lemma {:induction false} ReloadIff(urls: seq<string>, u: string, load: Loader)
    ensures Load(u, false) in CollectCalls(urls, load)
        <==> u in urls && load(u, true).Ok? && LacksSubstance(load(u, true).value)
    decreases |urls|
  {
    if urls != [] {
      var prefix := urls[..|urls| - 1];
      var last := urls[|urls| - 1];
      assert urls == prefix + [last];
      ReloadIff(prefix, u, load);
      assert u in urls <==> u in prefix || u == last;
    }
  }

  // ----- the whole load -----

  /** The document the fallback request produces. */
  function FallbackDoc(text: string): Document {
    Document(text, map["source" := SuperleagueUrl, "method" := "requests"])
  }

  /** Whether the fallback request yields a document. */
  predicate FallbackAdds(fetch: Result<HttpReply>) {
    fetch.Ok? && fetch.value.statusCode == 200
  }

  /** The result of `load_fresh_content`; `fetch` is what the fallback request would return. */
  function FreshContent(urls: seq<string>, load: Loader, fetch: Result<HttpReply>): Gathered {
    var gathered := Collected(urls, load);
    if LacksSubstance(gathered.docs) && FallbackAdds(fetch) then
      Gathered(gathered.docs + [FallbackDoc(fetch.value.text)], gathered.urls + [SuperleagueUrl])
    else gathered
  }

  /** Every outside call `load_fresh_content` makes, in order. */
  function FreshCalls(urls: seq<string>, load: Loader): seq<Call> {
    CollectCalls(urls, load) + if LacksSubstance(Collected(urls, load).docs) then [Fetch(SuperleagueUrl)] else []
  }

  /**
   * The fallback request is made exactly when the URL loop gathered nothing
   * or only short documents; a document is added exactly when it answers 200.
   */
  lemma FallbackIff(urls: seq<string>, load: Loader, fetch: Result<HttpReply>)
    ensures Fetch(SuperleagueUrl) in FreshCalls(urls, load) <==> LacksSubstance(Collected(urls, load).docs)
    ensures |FreshContent(urls, load, fetch).docs| == |Collected(urls, load).docs| + 1
        <==> LacksSubstance(Collected(urls, load).docs) && FallbackAdds(fetch)
  {
    assert !Fetch(SuperleagueUrl).Load?;
  }

  /**
   * One pass of the URL loop's `try` block: load with selectors, reload
   * without them when the first load lacks substance, keep the valid
   * documents. `None` when a load raised and the URL is skipped.
   */
  method LoadUrl(url: string, load: Loader) returns (validDocs: Option<seq<Document>>, ghost calls: seq<Call>)
    ensures validDocs == UrlDocs(url, load)
    ensures calls == UrlCalls(url, load)
  {
    calls := [Load(url, true)];
    var first := load(url, true);
    if first.Err? {
      return None, calls;
    }
    var docs := first.value;
    if docs == [] || forall i :: 0 <= i < |docs| ==> IsShort(docs[i]) {
      calls := calls + [Load(url, false)];
      var second := load(url, false);
      if second.Err? {
        return None, calls;
      }
      docs := second.value;
    }
    validDocs := Some(ValidDocs(docs));
  }

  /**
   * `load_fresh_content`: loads every URL in turn, retrying without selectors
   * when the first load lacks substance, keeps the valid documents, and, when
   * the whole gathering still lacks substance, falls back to a plain request.
   */
  method LoadFreshContent(load: Loader, fetch: Result<HttpReply>)
    returns (allDocs: seq<Document>, successfulUrls: seq<string>, ghost calls: seq<Call>)
    ensures allDocs == FreshContent(GreekDerbyUrls, load, fetch).docs
    ensures successfulUrls == FreshContent(GreekDerbyUrls, load, fetch).urls
    ensures calls == FreshCalls(GreekDerbyUrls, load)
  {
    var urls := GreekDerbyUrls;
    allDocs, successfulUrls, calls := [], [], [];
    for k := 0 to |urls|
      invariant Gathered(allDocs, successfulUrls) == Collected(urls[..k], load)
      invariant calls == CollectCalls(urls[..k], load)
    {
      var url := urls[k];
      assert urls[..k + 1] == urls[..k] + [url];
      var validDocs, urlCalls := LoadUrl(url, load);
      calls := calls + urlCalls;
      if validDocs.Some? && validDocs.value != [] {
        allDocs := allDocs + validDocs.value;
        successfulUrls := successfulUrls + [url];
      }
    }
    assert urls[..|urls|] == urls;
    if allDocs == [] || forall i :: 0 <= i < |allDocs| ==> IsShort(allDocs[i]) {
      calls := calls + [Fetch(SuperleagueUrl)];
      if fetch.Ok? {
        var response := fetch.value;
        if response.statusCode == 200 {
          allDocs := allDocs + [FallbackDoc(response.text)];
          successfulUrls := successfulUrls + [SuperleagueUrl];
        }
      }
    }
  }

  // ----- tagging and storing -----

  /** The keys the updater writes into every chunk's metadata. */
  predicate IsTagKey(k: string) {
    k == "source" || k == "type" || k == "updated_at" || k == "update_batch"
  }

  /**
   * One chunk after tagging: `currentTime` is the cycle's single
   * `datetime.now()` reading, `batchTime` this chunk's `int(time.time())`.
   */
  function Tagged(d: Document, currentTime: string, batchTime: nat): (t: Document)
    ensures t.pageContent == d.pageContent
    ensures "source" in t.metadata
    ensures t.metadata["source"] == if "source" in d.metadata then d.metadata["source"] else DefaultSource
    ensures "type" in t.metadata && t.metadata["type"] == NewsType
    ensures "updated_at" in t.metadata && t.metadata["updated_at"] == currentTime
    ensures "update_batch" in t.metadata && t.metadata["update_batch"] == BatchPrefix + ShowNat(batchTime)
    ensures forall k :: !IsTagKey(k) ==> (k in t.metadata <==> k in d.metadata)
    ensures forall k :: k in d.metadata && !IsTagKey(k) ==> t.metadata[k] == d.metadata[k]
  {
    var m := if "source" in d.metadata then d.metadata else d.metadata["source" := DefaultSource];
    Document(d.pageContent, m["type" := NewsType]["updated_at" := currentTime]["update_batch" := BatchPrefix + ShowNat(batchTime)])
  }

  /**
   * `process_and_store_content`: `splits` is what the text splitter made of
   * `docs`, `clock(i)` the `int(time.time())` reading while tagging chunk
   * `i`, and `storeOk` whether `add_documents` returned without raising.
   * The chunks are tagged in place; `stored` is what reached the vector store,
   * which after a raising store is at most a prefix of the chunks.
   */
  method ProcessAndStore(docs: seq<Document>, splits: array<Document>, currentTime: string,
                         clock: nat -> nat, storeOk: bool)
    returns (count: nat, ghost stored: seq<Document>)
    modifies splits
    ensures docs == [] ==> count == 0 && stored == [] && splits[..] == old(splits[..])
    ensures docs != [] ==> forall i :: 0 <= i < splits.Length ==> splits[i] == Tagged(old(splits[i]), currentTime, clock(i))
    ensures docs != [] ==> count == (if storeOk then splits.Length else 0)
    ensures docs != [] && storeOk ==> stored == splits[..]
    ensures docs != [] && !storeOk ==> stored <= splits[..]
  {
    if docs == [] {
      return 0, [];
    }
    for i := 0 to splits.Length
      invariant forall j :: 0 <= j < i ==> splits[j] == Tagged(old(splits[j]), currentTime, clock(j))
      invariant forall j :: i <= j < splits.Length ==> splits[j] == old(splits[j])
    {
      var split := splits[i];
      var metadata := split.metadata;
      if "source" !in metadata {
        metadata := metadata["source" := DefaultSource];
      }
      metadata := metadata["type" := NewsType];
      metadata := metadata["updated_at" := currentTime];
      metadata := metadata["update_batch" := BatchPrefix + ShowNat(clock(i))];
      splits[i] := split.(metadata := metadata);
    }
    if storeOk {
      count, stored := splits.Length, splits[..];
    } else {
      count, stored := 0, [];
    }
  }

  /** After tagging, every chunk carries the news type and one shared `updated_at`. */
  lemma TaggedShareUpdate(a: Document, b: Document, currentTime: string, t1: nat, t2: nat)
    ensures Tagged(a, currentTime, t1).metadata["type"] == Tagged(b, currentTime, t2).metadata["type"] == NewsType
    ensures Tagged(a, currentTime, t1).metadata["updated_at"] == Tagged(b, currentTime, t2).metadata["updated_at"]
  {
  }

  /** Tagging twice with the same readings changes nothing more: the source, once set, is kept. */
  lemma TaggedIdempotent(d: Document, currentTime: string, batchTime: nat)
    ensures Tagged(Tagged(d, currentTime, batchTime), currentTime, batchTime) == Tagged(d, currentTime, batchTime)
  {
    var once := Tagged(d, currentTime, batchTime);
    var twice := Tagged(once, currentTime, batchTime);
    assert twice.metadata.Keys == once.metadata.Keys;
  }

  // ----- the update cycle -----

  /**
   * `run_update`: loads, splits (`split(docs)` is `Err` when the splitter
   * raises, which `run_update`'s handler turns into a failure), tags and
   * stores. Returns whether the cycle succeeded.
   */
  method RunUpdate(load: Loader, fetch: Result<HttpReply>,
                   split: seq<Document> -> Result<seq<Document>>,
                   currentTime: string, clock: nat -> nat, storeOk: bool)
    returns (success: bool)
    ensures success <==>
      var docs := FreshContent(GreekDerbyUrls, load, fetch).docs;
      docs != [] && split(docs).Ok? && split(docs).value != [] && storeOk
  {
    var docs, successfulUrls, calls := LoadFreshContent(load, fetch);
    if docs == [] {
      return false;
    }
    var chunks := split(docs);
    if chunks.Err? {
      return false;
    }
    var pieces := chunks.value;
    var splits := new Document[|pieces|](i requires 0 <= i < |pieces| => pieces[i]);
    var chunksAdded, stored := ProcessAndStore(docs, splits, currentTime, clock, storeOk);
    if chunksAdded == 0 {
      return false;
    }
    return true;
  }

  /** The outcome of `main`: exit status 0 after a successful cycle, 1 otherwise. */
  function UpdateExitCode(success: bool): (code: int)
    ensures code == 0 <==> success
    ensures code == 1 <==> !success
  {
    if success then 0 else 1
  }
}
