/**
 * The exhibition record, its dictionary form, the JSON cache that stores a
 * list of such dictionaries, and the first-seen-wins deduplication of
 * `get_exhibitions`, keyed by lower-cased title and gallery.
 */
module Exhibitions {
  import opened Wrappers
  import opened Text

  /** The `Exhibition` dataclass: eleven string fields. */
  datatype Exhibition = Exhibition(
    title: string,
    artist: string,
    gallery: string,
    location: string,
    startDate: string,
    endDate: string,
    description: string,
    artistBio: string,
    exhibitionUrl: string,
    artistUrl: string,
    galleriesnowUrl: string)

  /** A JSON object read back from the cache: field name to value. */
  type Record = map<string, string>

  /** The dataclass's field names, the keys `asdict` produces. */
  const FieldNames: set<string> := {
    "title", "artist", "gallery", "location", "start_date", "end_date",
    "description", "artist_bio", "exhibition_url", "artist_url", "galleriesnow_url"}

  /** `Exhibition.to_dict`, that is `asdict(self)`. */
  function ToDict(e: Exhibition): (r: Record)
    ensures r.Keys == FieldNames
    ensures r["title"] == e.title && r["gallery"] == e.gallery
  {
    map[
      "title" := e.title, "artist" := e.artist, "gallery" := e.gallery,
      "location" := e.location, "start_date" := e.startDate, "end_date" := e.endDate,
      "description" := e.description, "artist_bio" := e.artistBio,
      "exhibition_url" := e.exhibitionUrl, "artist_url" := e.artistUrl,
      "galleriesnow_url" := e.galleriesnowUrl]
  }

  /**
   * The `TypeError` that `cls(**data)` raises: a keyword that is not a field
   * is reported before any field that has no keyword.
   */
  datatype FieldError = UnexpectedKeyword | MissingArgument

  /** `Exhibition.from_dict`, that is `cls(**data)`. */
  function FromDict(data: Record): (r: Result<Exhibition, FieldError>)
    ensures r.Ok? <==> data.Keys == FieldNames
    ensures r == Err(MissingArgument) ==> data.Keys < FieldNames
    ensures r == Err(UnexpectedKeyword) <==> !(data.Keys <= FieldNames)
  {
    if !(data.Keys <= FieldNames) then Err(UnexpectedKeyword)
    else if !(FieldNames <= data.Keys) then Err(MissingArgument)
    else
      Ok(Exhibition(
        data["title"], data["artist"], data["gallery"], data["location"],
        data["start_date"], data["end_date"], data["description"], data["artist_bio"],
        data["exhibition_url"], data["artist_url"], data["galleriesnow_url"]))
  }

  /** `from_dict(e.to_dict()) == e`. */
  lemma FromDictOfToDict(e: Exhibition)
    ensures FromDict(ToDict(e)) == Ok(e)
  { }

  /** A record `from_dict` accepts is exactly the `to_dict` of what it builds. */
  lemma ToDictOfFromDict(data: Record)
    requires FromDict(data).Ok?
    ensures ToDict(FromDict(data).value) == data
  {
    assert ToDict(FromDict(data).value).Keys == data.Keys;
  }

  // ---------------------------------------------------------------------
  // Identity keys and deduplication
  // ---------------------------------------------------------------------

  /** The identity key `(title.lower(), gallery.lower())`. */
  function KeyOf(e: Exhibition): (string, string)
  {
    (Lower(e.title), Lower(e.gallery))
  }

  /** Two records differing only in the letter case of title and gallery share a key. */
  lemma KeyIgnoresCase(e: Exhibition)
    ensures KeyOf(e.(title := Lower(e.title), gallery := Lower(e.gallery))) == KeyOf(e)
  {
    LowerIdempotent(e.title);
    LowerIdempotent(e.gallery);
  }

  function KeySet(xs: seq<Exhibition>): set<(string, string)>
  {
    set x | x in xs :: KeyOf(x)
  }

  predicate DistinctKeys(xs: seq<Exhibition>)
  {
    forall i, j :: 0 <= i < j < |xs| ==> KeyOf(xs[i]) != KeyOf(xs[j])
  }

  /** `xs` keeps some of the elements of `ys`, in their order. */
  predicate IsSubsequence(xs: seq<Exhibition>, ys: seq<Exhibition>)
  {
    xs == [] ||
    (ys != [] &&
     ((xs[|xs| - 1] == ys[|ys| - 1] && IsSubsequence(xs[..|xs| - 1], ys[..|ys| - 1])) ||
      IsSubsequence(xs, ys[..|ys| - 1])))
  }

  /** The element of `xs` that comes first among those with key `k`. */
  function FirstWithKey(xs: seq<Exhibition>, k: (string, string)): (r: Exhibition)
    requires k in KeySet(xs)
    ensures r in xs && KeyOf(r) == k
  {
    if KeyOf(xs[0]) == k then xs[0]
    else
      assert forall x :: x in xs && x != xs[0] ==> x in xs[1..];
      FirstWithKey(xs[1..], k)
  }

  lemma KeySetOfAppend(xs: seq<Exhibition>, x: Exhibition)
    ensures KeySet(xs + [x]) == KeySet(xs) + {KeyOf(x)}
  {
    assert forall y :: y in xs + [x] <==> y in xs || y == x;
  }

  lemma KeySetOfLast(xs: seq<Exhibition>)
    requires xs != []
    ensures KeySet(xs) == KeySet(xs[..|xs| - 1]) + {KeyOf(xs[|xs| - 1])}
  {
    assert xs == xs[..|xs| - 1] + [xs[|xs| - 1]];
    KeySetOfAppend(xs[..|xs| - 1], xs[|xs| - 1]);
  }

  /** One step of the deduplication: append `x` unless its key is already in `list`. */
  function AddIfNew(list: seq<Exhibition>, x: Exhibition): seq<Exhibition>
  {
    if KeyOf(x) in KeySet(list) then list else list + [x]
  }

  /** A step adds the new element's key and keeps keys distinct. */
  lemma AddIfNewKeys(list: seq<Exhibition>, x: Exhibition)
    ensures KeySet(AddIfNew(list, x)) == KeySet(list) + {KeyOf(x)}
    ensures DistinctKeys(list) ==> DistinctKeys(AddIfNew(list, x))
  {
    KeySetOfAppend(list, x);
    if DistinctKeys(list) && KeyOf(x) !in KeySet(list) {
      DistinctKeysOfAppend(list, x);
    }
  }

  /**
   * The deduplication loop of `get_exhibitions`: each element is kept when
   * no earlier element has its key.
   */
  function FirstOccurrences(xs: seq<Exhibition>): (r: seq<Exhibition>)
    ensures DistinctKeys(r)
    ensures KeySet(r) == KeySet(xs)
    ensures |r| <= |xs|
  {
    if xs == [] then []
    else
      KeySetOfLast(xs);
      AddIfNewKeys(FirstOccurrences(xs[..|xs| - 1]), xs[|xs| - 1]);
      AddIfNew(FirstOccurrences(xs[..|xs| - 1]), xs[|xs| - 1])
  }

  lemma DistinctKeysOfAppend(xs: seq<Exhibition>, x: Exhibition)
    requires DistinctKeys(xs) && KeyOf(x) !in KeySet(xs)
    ensures DistinctKeys(xs + [x])
  {
    assert forall i :: 0 <= i < |xs| ==> KeyOf(xs[i]) in KeySet(xs);
  }

  lemma FirstOccurrencesOfLast(xs: seq<Exhibition>)
    requires xs != []
    ensures FirstOccurrences(xs) == AddIfNew(FirstOccurrences(xs[..|xs| - 1]), xs[|xs| - 1])
  { }

  lemma DropLastOfConcat(xs: seq<Exhibition>, ys: seq<Exhibition>)
    requires ys != []
    ensures (xs + ys)[..|xs + ys| - 1] == xs + ys[..|ys| - 1]
  { }

  lemma FirstOccurrencesOfEqual(xs: seq<Exhibition>, ys: seq<Exhibition>)
    requires xs == ys
    ensures FirstOccurrences(xs) == FirstOccurrences(ys)
  { }

  /** The result is empty exactly when the input is. */
  lemma FirstOccurrencesEmpty(xs: seq<Exhibition>)
    ensures FirstOccurrences(xs) == [] <==> xs == []
  {
    if xs != [] {
      assert KeyOf(xs[0]) in KeySet(xs);
    }
  }

  /** The result keeps input elements in input order. */
  lemma {:induction false} FirstOccurrencesIsSubsequence(xs: seq<Exhibition>)
    ensures IsSubsequence(FirstOccurrences(xs), xs)
  {
    if xs != [] {
      var n := |xs| - 1;
      FirstOccurrencesIsSubsequence(xs[..n]);
      var r := FirstOccurrences(xs);
      if r != FirstOccurrences(xs[..n]) {
        assert r[..|r| - 1] == FirstOccurrences(xs[..n]);
      }
    }
  }

  lemma FirstWithKeyOfPrefix(xs: seq<Exhibition>, x: Exhibition, k: (string, string))
    requires k in KeySet(xs)
    ensures k in KeySet(xs + [x]) && FirstWithKey(xs + [x], k) == FirstWithKey(xs, k)
  {
    KeySetOfAppend(xs, x);
    if KeyOf(xs[0]) != k {
      assert (xs + [x])[1..] == xs[1..] + [x];
      assert xs[0] !in xs[1..] ==> k in KeySet(xs[1..]);
      FirstWithKeyOfPrefix(xs[1..], x, k);
    }
  }

  lemma FirstWithKeyOfNewKey(xs: seq<Exhibition>, x: Exhibition)
    requires KeyOf(x) !in KeySet(xs)
    ensures KeyOf(x) in KeySet(xs + [x]) && FirstWithKey(xs + [x], KeyOf(x)) == x
  {
    KeySetOfAppend(xs, x);
    if xs != [] {
      assert (xs + [x])[1..] == xs[1..] + [x];
      assert KeySet(xs[1..]) <= KeySet(xs);
      FirstWithKeyOfNewKey(xs[1..], x);
    }
  }

  /** First seen wins: every kept element is the first input element with its key. */
  lemma {:induction false} FirstOccurrencesKeepsFirst(xs: seq<Exhibition>)
    ensures forall y :: y in FirstOccurrences(xs) ==> y == FirstWithKey(xs, KeyOf(y))
  {
    if xs != [] {
      var n := |xs| - 1;
      var p := FirstOccurrences(xs[..n]);
      FirstOccurrencesKeepsFirst(xs[..n]);
      assert xs == xs[..n] + [xs[n]];
      forall y | y in FirstOccurrences(xs)
        ensures y == FirstWithKey(xs, KeyOf(y))
      {
        if y in p {
          assert KeyOf(y) in KeySet(p);
          FirstWithKeyOfPrefix(xs[..n], xs[n], KeyOf(y));
        } else {
          FirstWithKeyOfNewKey(xs[..n], xs[n]);
        }
      }
    }
  }

  /** A list whose keys are already distinct is left as it is. */
  lemma {:induction false} DistinctIsFixed(xs: seq<Exhibition>)
    requires DistinctKeys(xs)
    ensures FirstOccurrences(xs) == xs
  {
    if xs != [] {
      var n := |xs| - 1;
      assert DistinctKeys(xs[..n]);
      DistinctIsFixed(xs[..n]);
      assert KeyOf(xs[n]) !in KeySet(xs[..n]);
    }
  }

  /** Deduplicating twice is deduplicating once. */
  lemma FirstOccurrencesIdempotent(xs: seq<Exhibition>)
    ensures FirstOccurrences(FirstOccurrences(xs)) == FirstOccurrences(xs)
  {
    DistinctIsFixed(FirstOccurrences(xs));
  }

  /** Elements whose keys were already seen add nothing: deduplicating `xs + ys` gives the deduplicated `xs` when every key of `ys` occurs in `xs`. */
  lemma {:induction false} FirstOccurrencesOfKnownSuffix(xs: seq<Exhibition>, ys: seq<Exhibition>)
    requires KeySet(ys) <= KeySet(xs)
    ensures FirstOccurrences(xs + ys) == FirstOccurrences(xs)
    decreases |ys|
  {
    if ys == [] {
      assert xs + ys == xs;
    } else {
      var n := |ys| - 1;
      KeySetOfLast(ys);
      FirstOccurrencesOfKnownSuffix(xs, ys[..n]);
      DropLastOfConcat(xs, ys);
      FirstOccurrencesOfLast(xs + ys);
      assert KeyOf(ys[n]) in KeySet(FirstOccurrences(xs + ys[..n]));
    }
  }

  /** The same exhibitions listed twice deduplicate to the list deduplicated once. */
  lemma FirstOccurrencesOfDoubled(xs: seq<Exhibition>)
    ensures FirstOccurrences(xs + xs) == FirstOccurrences(xs)
  {
    FirstOccurrencesOfKnownSuffix(xs, xs);
  }

  // ---------------------------------------------------------------------
  // The cache file
  // ---------------------------------------------------------------------

  /**
   * What the cache file holds: nothing yet, text that `json.load` rejects,
   * or a JSON list of objects.
   */
  datatype CacheFile = Missing | Unreadable | Records(records: seq<Record>)

  function ToDicts(xs: seq<Exhibition>): (r: seq<Record>)
    ensures |r| == |xs| && forall i :: 0 <= i < |xs| ==> r[i] == ToDict(xs[i])
  {
    if xs == [] then [] else [ToDict(xs[0])] + ToDicts(xs[1..])
  }

  /** `[Exhibition.from_dict(e) for e in data]`; `None` when some record raises. */
  function FromDicts(rs: seq<Record>): (r: Option<seq<Exhibition>>)
    ensures r.Some? <==> forall i :: 0 <= i < |rs| ==> FromDict(rs[i]).Ok?
    ensures r.Some? ==> |r.value| == |rs|
  {
    if rs == [] then Some([])
    else match (FromDict(rs[0]), FromDicts(rs[1..]))
      case (Ok(e), Some(es)) => Some([e] + es)
      case _ => None
  }

  /** Saving a list and loading it back gives the list. */
  lemma {:induction false} FromDictsOfToDicts(xs: seq<Exhibition>)
    ensures FromDicts(ToDicts(xs)) == Some(xs)
  {
    if xs != [] {
      FromDictOfToDict(xs[0]);
      FromDictsOfToDicts(xs[1..]);
      assert xs == [xs[0]] + xs[1..];
    }
  }

  /** The cache file at `EXHIBITIONS_CACHE`. */
  class CacheStore {
    var file: CacheFile

    constructor ()
      ensures file == Missing
    {
      file := Missing;
    }

    /** `load_cached_exhibitions`: the cached list, or `[]` when the file is missing or any step fails. */
    function Load(): (r: seq<Exhibition>)
      reads this
      ensures !file.Records? ==> r == []
      ensures file.Records? && FromDicts(file.records).Some? ==> r == FromDicts(file.records).value
      ensures file.Records? && FromDicts(file.records).None? ==> r == []
    {
      match file
      case Records(rs) => (match FromDicts(rs) case Some(es) => es case None => [])
      case _ => []
    }

    /** `save_exhibitions_cache`: overwrite the file with the list's dictionaries. */
    method Save(xs: seq<Exhibition>)
      modifies this
      ensures file == Records(ToDicts(xs))
      ensures Load() == xs
    {
      file := Records(ToDicts(xs));
      FromDictsOfToDicts(xs);
    }
  }

  /**
   * `get_exhibitions` after fetching: deduplicate `fetched` by key, keeping
   * the first of each, and write the cache only when something is left.
   */
  method GetExhibitions(cache: CacheStore, fetched: seq<Exhibition>) returns (unique: seq<Exhibition>)
    modifies cache
    ensures unique == FirstOccurrences(fetched)
    ensures unique != [] ==> cache.file == Records(ToDicts(unique)) && cache.Load() == unique
    ensures unique == [] ==> cache.file == old(cache.file)
  {
    var seen: set<(string, string)> := {};
    unique := [];
    var i := 0;
    while i < |fetched|
      invariant i <= |fetched|
      invariant unique == FirstOccurrences(fetched[..i])
      invariant seen == KeySet(fetched[..i])
      invariant cache.file == old(cache.file)
    {
      var ex := fetched[i];
      var key := (Lower(ex.title), Lower(ex.gallery));
      assert fetched[..i + 1][..i] == fetched[..i];
      assert FirstOccurrences(fetched[..i + 1]) == AddIfNew(unique, ex);
      KeySetOfLast(fetched[..i + 1]);
      if key !in seen {
        seen := seen + {key};
        unique := unique + [ex];
      }
      i := i + 1;
    }
    assert fetched[..i] == fetched;
    if unique != [] {
      cache.Save(unique);
    }
  }
}
