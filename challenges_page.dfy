/** The challenge list page, `src/pages/Challenges.jsx`: a five-minute
    cache of the three sections over `localStorage`, the cache-or-fetch
    logic of each section, and the error text of a failed fetch. */
module ChallengesPage {
  import opened Base
  import opened Text
  import opened Js

  /** `CACHE_EXPIRY_TIME`: five minutes in milliseconds. */
  const CacheExpiry: int := 5 * 60 * 1000

  /** Every cache key is stored under the "idoit_" prefix. */
  function CacheKey(key: string): (k: string)
    ensures |k| == 6 + |key| && k[..6] == "idoit_" && k[6..] == key
  {
    "idoit_" + key
  }

  lemma CacheKeyInjective(a: string, b: string)
    requires CacheKey(a) == CacheKey(b)
    ensures a == b
  {
    assert a == CacheKey(a)[6..] && b == CacheKey(b)[6..];
  }

  /** A `localStorage` item as the page reads it: the `{ data, timestamp }`
      text it wrote itself, or some other text that is not such an entry. */
  datatype Stored = Entry(data: Value, timestamp: int) | Garbled(raw: string)

  /** The value `getFromCache(key)` returns: null for a missing item, an
      empty item, an unreadable item or an entry older than five minutes;
      otherwise the entry's data. */
  function Lookup(storage: map<string, Stored>, key: string, now: int): Value
  {
    var k := CacheKey(key);
    if k !in storage then Null
    else match storage[k]
      case Garbled(_) => Null
      case Entry(data, timestamp) => if now - timestamp > CacheExpiry then Null else data
  }

  /** The storage after `getFromCache(key)`: an unreadable or expired item
      is removed; an empty item stays. */
  function AfterLookup(storage: map<string, Stored>, key: string, now: int): map<string, Stored>
  {
    var k := CacheKey(key);
    if k !in storage then storage
    else match storage[k]
      case Garbled(raw) => if raw == "" then storage else storage - {k}
      case Entry(_, timestamp) => if now - timestamp > CacheExpiry then storage - {k} else storage
  }

  /** A lookup touches no other item and never adds one. */
  lemma LookupTouchesOnlyItsKey(storage: map<string, Stored>, key: string, now: int)
    ensures forall k :: k != CacheKey(key) ==>
              (k in AfterLookup(storage, key, now) <==> k in storage)
    ensures forall k :: k != CacheKey(key) && k in storage ==> AfterLookup(storage, key, now)[k] == storage[k]
  {
  }

  /** An entry is served up to and including five minutes after it was
      written, and removed and not served one millisecond later. */
  lemma ExpiryBoundary(storage: map<string, Stored>, key: string, data: Value, t: int)
    requires CacheKey(key) in storage && storage[CacheKey(key)] == Entry(data, t)
    ensures Lookup(storage, key, t + 300000) == data
    ensures AfterLookup(storage, key, t + 300000) == storage
    ensures Lookup(storage, key, t + 300001) == Null
    ensures AfterLookup(storage, key, t + 300001) == storage - {CacheKey(key)}
  {
  }

  /** An unreadable item is removed and read as null; a missing item is read
      as null and nothing changes. */
  lemma UnreadableAndMissing(storage: map<string, Stored>, key: string, now: int)
    ensures CacheKey(key) !in storage ==>
              Lookup(storage, key, now) == Null && AfterLookup(storage, key, now) == storage
    ensures CacheKey(key) in storage && storage[CacheKey(key)].Garbled? && storage[CacheKey(key)].raw != "" ==>
              Lookup(storage, key, now) == Null
              && AfterLookup(storage, key, now) == storage - {CacheKey(key)}
  {
  }

  /** What `saveToCache(key, data)` writes. */
  function Saved(storage: map<string, Stored>, key: string, data: Value, now: int): map<string, Stored>
  {
    storage[CacheKey(key) := Entry(data, now)]
  }

  /** Saving and then reading at the same instant gives the data back and
      removes nothing; no other item changes. */
  lemma SaveThenGet(storage: map<string, Stored>, key: string, data: Value, now: int)
    ensures Lookup(Saved(storage, key, data, now), key, now) == data
    ensures AfterLookup(Saved(storage, key, data, now), key, now) == Saved(storage, key, data, now)
    ensures forall k :: k != CacheKey(key) && k in storage ==>
              k in Saved(storage, key, data, now) && Saved(storage, key, data, now)[k] == storage[k]
  {
  }

  /** What `fetch` gives: a network error, or a response with its status
      line and body text. */
  datatype Response = NetworkError(message: string)
                    | Response(ok: bool, status: nat, statusText: string, text: string)

  /** The result of `fetchWithErrorHandling`: the parsed value (null on any
      failure) and the text of the error toast, if any. */
  datatype Fetched = Fetched(value: Value, toast: Option<string>)

  /** The error text of a response that is not ok: the status line and at
      most the first 100 characters of the body. */
  function StatusMessage(status: nat, statusText: string, text: string): (m: string)
    ensures m == NatToString(status) + " " + statusText + ": " + Prefix(text, 100) + "..."
    ensures |m| == |NatToString(status)| + |statusText| + Min(100, |text|) + 6
  {
    NatToString(status) + " " + statusText + ": " + Prefix(text, 100) + "..."
  }

  /** A failed fetch: a null result and the toast naming the section. */
  function Failed(what: string, message: string): Fetched
  {
    Fetched(Null, Some(what + " loading failed: " + message))
  }

  function FetchJson(response: Response, what: string, json: Json): (r: Fetched)
    ensures r.toast.None? <==> response.Response? && response.ok && json.parse(response.text).Some?
    ensures r.toast.None? ==> r.value == json.parse(response.text).value
    ensures r.toast.Some? ==> r.value == Null && |r.toast.value| > |what| && r.toast.value[..|what|] == what
  {
    match response
    case NetworkError(message) => Failed(what, message)
    case Response(ok, status, statusText, text) =>
      if !ok then Failed(what, StatusMessage(status, statusText, text))
      else match json.parse(text)
        case None => Failed(what, "Invalid JSON response for " + what)
        case Some(v) => Fetched(v, None)
  }

  /** A long error body reaches the toast only through its first 100
      characters. */
  lemma ErrorTextTruncated(status: nat, statusText: string, text: string, what: string, json: Json)
    ensures var r := FetchJson(Response(false, status, statusText, text), what, json);
            r == Fetched(Null, Some(what + " loading failed: " + StatusMessage(status, statusText, text)))
    ensures |text| >= 100 ==>
              |StatusMessage(status, statusText, text)| == |NatToString(status)| + |statusText| + 106
  {
  }

  /** The three sections of the page. */
  datatype Section = Popular | Today | Fallen

  /** The cache key of each section. */
  function CacheName(s: Section): string
  {
    match s
    case Popular => "popular_challenges"
    case Today => "todays_challenge"
    case Fallen => "fallen_challenges"
  }

  /** The error-toast label of each section. */
  function Label(s: Section): string
  {
    match s
    case Popular => "Popular challenges"
    case Today => "Today's challenge"
    case Fallen => "Fallen challenges"
  }

  /** The page state that the fetchers update: the browser storage, what
      each section shows, and when each was last fetched. */
  class Page {
    var storage: map<string, Stored>
    var shown: map<Section, Value>
    var lastFetch: map<Section, int>

    constructor (storage: map<string, Stored>)
      ensures this.storage == storage
      ensures shown == map[Popular := Arr([]), Today := Null, Fallen := Arr([])]
      ensures lastFetch == map[Popular := 0, Today := 0, Fallen := 0]
    {
      this.storage := storage;
      shown := map[Popular := Arr([]), Today := Null, Fallen := Arr([])];
      lastFetch := map[Popular := 0, Today := 0, Fallen := 0];
    }

    method GetFromCache(key: string, now: int) returns (v: Value)
      modifies this
      ensures v == Lookup(old(storage), key, now)
      ensures storage == AfterLookup(old(storage), key, now)
      ensures shown == old(shown) && lastFetch == old(lastFetch)
    {
      var k := CacheKey(key);
      if k !in storage {
        return Null;
      }
      match storage[k]
      case Garbled(raw) =>
        if raw != "" {
          storage := storage - {k};
        }
        v := Null;
      case Entry(data, timestamp) =>
        if now - timestamp > CacheExpiry {
          storage := storage - {k};
          return Null;
        }
        v := data;
    }

    method SaveToCache(key: string, data: Value, now: int)
      modifies this
      ensures storage == Saved(old(storage), key, data, now)
      ensures shown == old(shown) && lastFetch == old(lastFetch)
    {
      storage := storage[CacheKey(key) := Entry(data, now)];
    }

    /** `fetchPopularChallenges` and its two siblings. Unless forced, a
        truthy cached value is shown and returned without a request;
        otherwise the response is read, and a truthy result is shown,
        saved and stamped, while a null result changes nothing more. */
    method FetchSection(section: Section, force: bool, now: int, response: Response, json: Json)
      returns (result: Value, requested: bool)
      modifies this
      ensures var cached := Lookup(old(storage), CacheName(section), now);
              !force && Truthy(cached) ==>
                && result == cached && !requested
                && storage == AfterLookup(old(storage), CacheName(section), now)
                && shown == old(shown)[section := cached] && lastFetch == old(lastFetch)
      ensures var cached := Lookup(old(storage), CacheName(section), now);
              var checked := if force then old(storage) else AfterLookup(old(storage), CacheName(section), now);
              var fetched := FetchJson(response, Label(section), json).value;
              (force || !Truthy(cached)) ==>
                && requested && result == fetched
                && (Truthy(fetched) ==>
                      && storage == Saved(checked, CacheName(section), fetched, now)
                      && shown == old(shown)[section := fetched]
                      && lastFetch == old(lastFetch)[section := now])
                && (!Truthy(fetched) ==>
                      storage == checked && shown == old(shown) && lastFetch == old(lastFetch))
    {
      if !force {
        var cached := GetFromCache(CacheName(section), now);
        if Truthy(cached) {
          shown := shown[section := cached];
          return cached, false;
        }
      }
      result := FetchJson(response, Label(section), json).value;
      requested := true;
      if Truthy(result) {
        shown := shown[section := result];
        SaveToCache(CacheName(section), result, now);
        lastFetch := lastFetch[section := now];
      }
    }
  }

  /** A successful fetch is served from the cache by the next unforced
      fetch within five minutes, without a request. */
  lemma FetchedThenCached(storage: map<string, Stored>, section: Section, value: Value, t: int, later: int)
    requires Truthy(value) && t <= later <= t + CacheExpiry
    ensures Lookup(Saved(storage, CacheName(section), value, t), CacheName(section), later) == value
  {
  }
}
