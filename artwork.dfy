/** `getArtworkDataUrl`: artwork URLs resolved to data URLs through a cache
    that lives as long as the plugin runs. The fetch and the file read are I/O;
    their outcome is an input. */
module Artwork {
  import opened Wrappers

  /** `artworkCache`: URL to the data URL the file reader produced (`null` when
      the read itself failed). */
  type Cache = map<string, Option<string>>

  /** How fetching an uncached URL ends: the request or the body read threw,
      the response was not ok, or the file reader finished with this result. */
  datatype FetchOutcome = FetchFailed | NotOk | ReadDone(result: Option<string>)

  datatype Resolution = Resolution(dataUrl: Option<string>, cache: Cache)

  function Resolve(cache: Cache, url: Option<string>, fetch: FetchOutcome): Resolution {
    if url.None? || url.value == "" then Resolution(None, cache)
    else if url.value in cache then Resolution(cache[url.value], cache)
    else match fetch
      case ReadDone(result) => Resolution(result, cache[url.value := result])
      case _ => Resolution(None, cache)
  }

  /** An absent or empty URL gives `null`; a cached URL gives its entry. For an
      uncached URL, a finished read is stored under the URL and returned, while
      a failed request or a response that is not ok gives `null` and leaves the
      cache alone. So the cache gains an entry only when a read finished, and
      entries are never overwritten or dropped. */
  lemma ResolveContract(cache: Cache, url: Option<string>, fetch: FetchOutcome)
    ensures url.None? || url.value == "" ==> Resolve(cache, url, fetch) == Resolution(None, cache)
    ensures url.Some? && url.value != "" && url.value in cache ==>
              Resolve(cache, url, fetch) == Resolution(cache[url.value], cache)
    ensures url.Some? && url.value != "" && url.value !in cache ==>
              Resolve(cache, url, fetch) ==
                (if fetch.ReadDone? then Resolution(fetch.result, cache[url.value := fetch.result])
                 else Resolution(None, cache))
    ensures Resolve(cache, url, fetch).cache != cache ==>
              url.Some? && url.value != "" && url.value !in cache && fetch.ReadDone? &&
              Resolve(cache, url, fetch).cache == cache[url.value := fetch.result] &&
              Resolve(cache, url, fetch).dataUrl == fetch.result
    ensures forall k :: k in cache ==>
              k in Resolve(cache, url, fetch).cache && Resolve(cache, url, fetch).cache[k] == cache[k]
  {
  }

  /** Once a URL is cached, resolving it again gives the same data URL and
      leaves the cache alone, however a fetch would have gone: two identical
      messages show identical artwork. */
  lemma ResolveStable(cache: Cache, url: Option<string>, first: FetchOutcome, second: FetchOutcome)
    requires url.Some? && url.value in Resolve(cache, url, first).cache
    ensures Resolve(Resolve(cache, url, first).cache, url, second) == Resolve(cache, url, first)
  {
  }
}
