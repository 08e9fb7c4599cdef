/**
 * The hand-entered exhibitions and `add_manual_exhibitions`, which appends
 * to the cached list each of them whose key is not there yet and saves the
 * result.
 */
module ManualExhibitions {
  import opened Wrappers
  import opened Text
  import opened Dates
  import opened Exhibitions

  /** `MANUAL_EXHIBITIONS[0]`. */
  const LateAtNight: Exhibition := Exhibition(
      title := "Late at night, early in the morning, at noon",
      artist := "Glenn Ligon",
      gallery := "Hauser & Wirth",
      location := "Hauser & Wirth, 443 West 18th Street, New York, NY",
      startDate := "2026-01-15",
      endDate := "2026-04-04",
      description := "A two-part exhibition of new and historic works on paper. This presentation extends the artist's longstanding engagement with language and abstraction through richly layered compositions that meditate on the color blue and its emotional, historical and cultural inflections.",
      artistBio := "Glenn Ligon has pursued an incisive exploration of American history, literature and society. In 2011, the Whitney Museum held a mid-career retrospective, 'Glenn Ligon: AMERICA.'",
      exhibitionUrl := "https://www.hauserwirth.com/hauser-wirth-exhibitions/glenn-ligon-late-at-night-early-in-the-morning-at-noon/",
      artistUrl := "https://www.hauserwirth.com/artists/24240-glenn-ligon/",
      galleriesnowUrl := "https://www.galleriesnow.net/gallery/hauser-wirth/")

  /** `MANUAL_EXHIBITIONS[1]`. */
  const FeedbackLoop: Exhibition := Exhibition(
      title := "Feedback Loop",
      artist := "Alexis Rockman",
      gallery := "Jack Shainman Gallery",
      location := "Jack Shainman Gallery, 513 West 20th Street, New York, NY",
      startDate := "2026-01-15",
      endDate := "2026-02-28",
      description := "Rockman's first solo presentation with Jack Shainman Gallery. The exhibition highlights humanity's fragile relationship to the natural world through Forest Fire paintings and watercolors.",
      artistBio := "Alexis Rockman is known for large-scale paintings depicting ecological and environmental themes.",
      exhibitionUrl := "https://jackshainman.com/exhibitions/alexis_rockman_feedback_loop",
      artistUrl := "https://www.alexisrockman.net/",
      galleriesnowUrl := "https://www.galleriesnow.net/gallery/jack-shainman-gallery/")

  /** `MANUAL_EXHIBITIONS[2]`. */
  const Grids: Exhibition := Exhibition(
      title := "Grids",
      artist := "Dan Flavin",
      gallery := "David Zwirner",
      location := "David Zwirner, 525 West 19th Street, New York, NY",
      startDate := "2026-01-15",
      endDate := "2026-02-21",
      description := "Works by the pioneering Minimalist artist Dan Flavin, focusing on his grid-based light installations.",
      artistBio := "Dan Flavin (1933-1996) was an American minimalist artist famous for creating sculptural objects from commercially available fluorescent light fixtures.",
      exhibitionUrl := "https://www.davidzwirner.com/exhibitions/dan-flavin-grids",
      artistUrl := "https://www.davidzwirner.com/artists/dan-flavin",
      galleriesnowUrl := "https://www.galleriesnow.net/gallery/david-zwirner/")

  /** `MANUAL_EXHIBITIONS[3]`. */
  const SoloExhibition: Exhibition := Exhibition(
      title := "Solo Exhibition (Swimmers and Surfers)",
      artist := "Gideon Appah",
      gallery := "Pace Gallery",
      location := "Pace Gallery, 540 West 25th Street, New York, NY",
      startDate := "2026-01-16",
      endDate := "2026-02-28",
      description := "Gideon Appah's first solo show with Pace in New York, focusing on his 'Swimmers and Surfers' series.",
      artistBio := "Gideon Appah is a Ghanaian contemporary artist known for vibrant, large-scale paintings exploring themes of leisure, identity, and the human figure.",
      exhibitionUrl := "https://www.pacegallery.com/exhibitions/gideon-appah-new-york/",
      artistUrl := "https://www.pacegallery.com/artists/gideon-appah/",
      galleriesnowUrl := "https://www.galleriesnow.net/gallery/pace-gallery/")

  /** `MANUAL_EXHIBITIONS[4]`. */
  const DelayedGravity: Exhibition := Exhibition(
      title := "Delayed Gravity",
      artist := "Wang Guangle",
      gallery := "Pace Gallery",
      location := "Pace Gallery, 540 West 25th Street, New York, NY",
      startDate := "2026-01-16",
      endDate := "2026-02-28",
      description := "New works by Chinese contemporary artist Wang Guangle, known for his meditative approach to painting.",
      artistBio := "Wang Guangle (b. 1976) is a Beijing-based artist known for methodical, labor-intensive paintings that explore concepts of time and accumulation.",
      exhibitionUrl := "https://www.pacegallery.com/exhibitions/wang-guangle-delayed-gravity/",
      artistUrl := "https://www.pacegallery.com/artists/wang-guangle/",
      galleriesnowUrl := "https://www.galleriesnow.net/gallery/pace-gallery/")

  /** `MANUAL_EXHIBITIONS[5]`. */
  const AMomentInTime: Exhibition := Exhibition(
      title := "A Moment in Time: Plaster Surrogates, 1991-1993",
      artist := "Allan McCollum",
      gallery := "Petzel Gallery",
      location := "Petzel Gallery, 456 West 18th Street, New York, NY",
      startDate := "2026-01-15",
      endDate := "2026-02-28",
      description := "Allan McCollum's iconic Plaster Surrogates, exploring mass production, uniqueness, and the nature of art objects.",
      artistBio := "Allan McCollum (b. 1944) is a conceptual artist examining systems of production and value placed on uniqueness in art.",
      exhibitionUrl := "https://www.petzel.com/exhibitions/allan-mccollum",
      artistUrl := "https://allanmccollum.net/",
      galleriesnowUrl := "https://www.galleriesnow.net/gallery/petzel/")

  /** `MANUAL_EXHIBITIONS[6]`. */
  const ThoughtInMaterial: Exhibition := Exhibition(
      title := "Thought In Material, Selected Works 1984-2025",
      artist := "Andrew Lord",
      gallery := "Gladstone Gallery",
      location := "Gladstone Gallery, 515 West 24th Street, New York, NY",
      startDate := "2026-01-15",
      endDate := "2026-02-21",
      description := "A survey spanning four decades of Andrew Lord's sculptural practice.",
      artistBio := "Andrew Lord (b. 1950) is a British sculptor known for ceramic works that challenge boundaries between craft and fine art.",
      exhibitionUrl := "https://www.gladstonegallery.com/exhibition/andrew-lord-thought-in-material",
      artistUrl := "https://www.gladstonegallery.com/artist/andrew-lord",
      galleriesnowUrl := "https://www.galleriesnow.net/gallery/gladstone-gallery/")

  /** `MANUAL_EXHIBITIONS[7]`. */
  const WorksFromThe1960s: Exhibition := Exhibition(
      title := "Works from the 1960s",
      artist := "Sol LeWitt",
      gallery := "Paula Cooper Gallery",
      location := "Paula Cooper Gallery, 524 West 26th Street, New York, NY",
      startDate := "2026-01-15",
      endDate := "2026-02-28",
      description := "Foundational works from the 1960s, when Sol LeWitt developed the conceptual art principles that defined his career.",
      artistBio := "Sol LeWitt (1928-2007) was linked to Conceptual art and Minimalism, famous for wall drawings and 'structures.'",
      exhibitionUrl := "https://www.paulacoopergallery.com/exhibitions/sol-lewitt-works-from-the-1960s",
      artistUrl := "https://www.paulacoopergallery.com/artists/sol-lewitt",
      galleriesnowUrl := "https://www.galleriesnow.net/gallery/paula-cooper-gallery/")

  /** `MANUAL_EXHIBITIONS[8]`. */
  const BetweenTheClockAndTheBed: Exhibition := Exhibition(
      title := "Between the Clock and the Bed",
      artist := "Jasper Johns",
      gallery := "Gagosian",
      location := "Gagosian, 980 Madison Avenue, New York, NY",
      startDate := "2026-01-22",
      endDate := "2026-03-14",
      description := "Works exploring Jasper Johns' iconic crosshatch motif.",
      artistBio := "Jasper Johns (b. 1930) is one of the most influential American artists of the 20th century, known for flags, targets, and crosshatch paintings.",
      exhibitionUrl := "https://gagosian.com/exhibitions/jasper-johns-between-the-clock-and-the-bed/",
      artistUrl := "https://gagosian.com/artists/jasper-johns/",
      galleriesnowUrl := "https://www.galleriesnow.net/shows/jasper-johns-between-the-clock-and-the-bed/")

  /** `MANUAL_EXHIBITIONS[9]`. */
  const GatheringWool: Exhibition := Exhibition(
      title := "Gathering Wool",
      artist := "Louise Bourgeois",
      gallery := "Hauser & Wirth",
      location := "Hauser & Wirth, 542 West 22nd Street, New York, NY",
      startDate := "2026-01-15",
      endDate := "2026-04-18",
      description := "Sculptures, reliefs, and works on paper exploring themes of memory, the body, and psychological states.",
      artistBio := "Louise Bourgeois (1911-2010) was a French-American artist best known for large-scale sculpture. She is most famous for her spider sculptures.",
      exhibitionUrl := "https://www.hauserwirth.com/hauser-wirth-exhibitions/louise-bourgeois-gathering-wool/",
      artistUrl := "https://www.hauserwirth.com/artists/louise-bourgeois/",
      galleriesnowUrl := "https://www.galleriesnow.net/gallery/hauser-wirth/")

  // ---------------------------------------------------------------------
  // The manual entries
  // ---------------------------------------------------------------------

  /** An entry whose title and gallery are not empty. */
  predicate Keyed(e: Exhibition) { e.title != [] && e.gallery != [] }

  /**
   * The lower-cased last characters of the title and the gallery; the
   * manual entries differ in them, which tells their keys apart.
   */
  function Finals(e: Exhibition): (char, char)
    requires Keyed(e)
  {
    (LowerChar(e.title[|e.title| - 1]), LowerChar(e.gallery[|e.gallery| - 1]))
  }

  /** Equal keys end with the same lower-cased characters. */
  lemma SameKeySameFinals(a: Exhibition, b: Exhibition)
    requires Keyed(a) && Keyed(b) && KeyOf(a) == KeyOf(b)
    ensures Finals(a) == Finals(b)
  {
    assert Lower(a.title)[|a.title| - 1] == Lower(b.title)[|b.title| - 1];
    assert Lower(a.gallery)[|a.gallery| - 1] == Lower(b.gallery)[|b.gallery| - 1];
  }

  /**
   * `xs` has distinct keys, and each of its entries is keyed, dated in order
   * and has its final characters in `seen`.
   */
  predicate Listed(xs: seq<Exhibition>, seen: set<(char, char)>)
  {
    DistinctKeys(xs) && forall y :: y in xs ==> Keyed(y) && DatedInOrder(y) && Finals(y) in seen
  }

  /** An entry with final characters not seen yet keeps the keys distinct. */
  lemma AppendApart(xs: seq<Exhibition>, seen: set<(char, char)>, x: Exhibition)
    requires Listed(xs, seen) && Keyed(x) && DatedInOrder(x) && Finals(x) !in seen
    ensures Listed(xs + [x], seen + {Finals(x)})
  {
    forall y | y in xs
      ensures KeyOf(y) != KeyOf(x)
    {
      if KeyOf(y) == KeyOf(x) {
        SameKeySameFinals(y, x);
      }
    }
    DistinctKeysOfAppend(xs, x);
  }

  /** The entry's dates are ISO dates, the opening no later than the closing. */
  predicate DatedInOrder(e: Exhibition)
  {
    ParseIso(e.startDate).Some? && ParseIso(e.endDate).Some? &&
    NotAfter(ParseIso(e.startDate).value, ParseIso(e.endDate).value)
  }

  // The source writes the manual list as one literal. Here each entry is a
  // constant read through its own method, the keys are told apart by
  // `Finals` rather than by comparing whole strings, and the list is built in
  // two halves: the verifier then never holds more than a few long string
  // literals at once. None of this stands for a step of the source.

  /** `MANUAL_EXHIBITIONS[0]`, with its final characters and its dates. */
  method LateAtNightEntry() returns (e: Exhibition)
    ensures Keyed(e) && Finals(e) == ('n', 'h')
    ensures ParseIso(e.startDate) == Some(Date(2026, 1, 15)) && ParseIso(e.endDate) == Some(Date(2026, 4, 4))
  {
    e := LateAtNight;
    Iso20260115();
    Iso20260404();
  }

  /** `MANUAL_EXHIBITIONS[1]`, with its final characters and its dates. */
  method FeedbackLoopEntry() returns (e: Exhibition)
    ensures Keyed(e) && Finals(e) == ('p', 'y')
    ensures ParseIso(e.startDate) == Some(Date(2026, 1, 15)) && ParseIso(e.endDate) == Some(Date(2026, 2, 28))
  {
    e := FeedbackLoop;
    Iso20260115();
    Iso20260228();
  }

  /** `MANUAL_EXHIBITIONS[2]`, with its final characters and its dates. */
  method GridsEntry() returns (e: Exhibition)
    ensures Keyed(e) && Finals(e) == ('s', 'r')
    ensures ParseIso(e.startDate) == Some(Date(2026, 1, 15)) && ParseIso(e.endDate) == Some(Date(2026, 2, 21))
  {
    e := Grids;
    Iso20260115();
    Iso20260221();
  }

  /** `MANUAL_EXHIBITIONS[3]`, with its final characters and its dates. */
  method SoloExhibitionEntry() returns (e: Exhibition)
    ensures Keyed(e) && Finals(e) == (')', 'y')
    ensures ParseIso(e.startDate) == Some(Date(2026, 1, 16)) && ParseIso(e.endDate) == Some(Date(2026, 2, 28))
  {
    e := SoloExhibition;
    Iso20260116();
    Iso20260228();
  }

  /** `MANUAL_EXHIBITIONS[4]`, with its final characters and its dates. */
  method DelayedGravityEntry() returns (e: Exhibition)
    ensures Keyed(e) && Finals(e) == ('y', 'y')
    ensures ParseIso(e.startDate) == Some(Date(2026, 1, 16)) && ParseIso(e.endDate) == Some(Date(2026, 2, 28))
  {
    e := DelayedGravity;
    Iso20260116();
    Iso20260228();
  }

  /** `MANUAL_EXHIBITIONS[5]`, with its final characters and its dates. */
  method AMomentInTimeEntry() returns (e: Exhibition)
    ensures Keyed(e) && Finals(e) == ('3', 'y')
    ensures ParseIso(e.startDate) == Some(Date(2026, 1, 15)) && ParseIso(e.endDate) == Some(Date(2026, 2, 28))
  {
    e := AMomentInTime;
    Iso20260115();
    Iso20260228();
  }

  /** `MANUAL_EXHIBITIONS[6]`, with its final characters and its dates. */
  method ThoughtInMaterialEntry() returns (e: Exhibition)
    ensures Keyed(e) && Finals(e) == ('5', 'y')
    ensures ParseIso(e.startDate) == Some(Date(2026, 1, 15)) && ParseIso(e.endDate) == Some(Date(2026, 2, 21))
  {
    e := ThoughtInMaterial;
    Iso20260115();
    Iso20260221();
  }

  /** `MANUAL_EXHIBITIONS[7]`, with its final characters and its dates. */
  method WorksFromThe1960sEntry() returns (e: Exhibition)
    ensures Keyed(e) && Finals(e) == ('s', 'y')
    ensures ParseIso(e.startDate) == Some(Date(2026, 1, 15)) && ParseIso(e.endDate) == Some(Date(2026, 2, 28))
  {
    e := WorksFromThe1960s;
    Iso20260115();
    Iso20260228();
  }

  /** `MANUAL_EXHIBITIONS[8]`, with its final characters and its dates. */
  method BetweenTheClockAndTheBedEntry() returns (e: Exhibition)
    ensures Keyed(e) && Finals(e) == ('d', 'n')
    ensures ParseIso(e.startDate) == Some(Date(2026, 1, 22)) && ParseIso(e.endDate) == Some(Date(2026, 3, 14))
  {
    e := BetweenTheClockAndTheBed;
    Iso20260122();
    Iso20260314();
  }

  /** `MANUAL_EXHIBITIONS[9]`, with its final characters and its dates. */
  method GatheringWoolEntry() returns (e: Exhibition)
    ensures Keyed(e) && Finals(e) == ('l', 'h')
    ensures ParseIso(e.startDate) == Some(Date(2026, 1, 15)) && ParseIso(e.endDate) == Some(Date(2026, 4, 18))
  {
    e := GatheringWool;
    Iso20260115();
    Iso20260418();
  }


  // ---------------------------------------------------------------------
  // The merge
  // ---------------------------------------------------------------------

  /**
   * The list `add_manual_exhibitions` saves: `existing`, then each of
   * `additions` whose key is not in the list built so far.
   */
  function Merge(existing: seq<Exhibition>, additions: seq<Exhibition>): seq<Exhibition>
  {
    if additions == [] then existing
    else AddIfNew(Merge(existing, additions[..|additions| - 1]), additions[|additions| - 1])
  }

  /** The cached list is kept, unchanged, as a prefix: the merge only appends. */
  lemma {:induction false} MergeOnlyAppends(existing: seq<Exhibition>, additions: seq<Exhibition>)
    ensures |existing| <= |Merge(existing, additions)| <= |existing| + |additions|
    ensures Merge(existing, additions)[..|existing|] == existing
  {
    if additions != [] {
      var n := |additions| - 1;
      var p := Merge(existing, additions[..n]);
      MergeOnlyAppends(existing, additions[..n]);
      assert (p + [additions[n]])[..|existing|] == p[..|existing|];
    }
  }

  /** The merged keys are the cached keys and the added keys. */
  lemma {:induction false} MergeKeySet(existing: seq<Exhibition>, additions: seq<Exhibition>)
    ensures KeySet(Merge(existing, additions)) == KeySet(existing) + KeySet(additions)
  {
    if additions != [] {
      var n := |additions| - 1;
      MergeKeySet(existing, additions[..n]);
      KeySetOfLast(additions);
      AddIfNewKeys(Merge(existing, additions[..n]), additions[n]);
    }
  }

  /** When the cached keys are pairwise distinct, so are the merged keys. */
  lemma {:induction false} MergeKeepsDistinct(existing: seq<Exhibition>, additions: seq<Exhibition>)
    requires DistinctKeys(existing)
    ensures DistinctKeys(Merge(existing, additions))
  {
    if additions != [] {
      var n := |additions| - 1;
      MergeKeepsDistinct(existing, additions[..n]);
      AddIfNewKeys(Merge(existing, additions[..n]), additions[n]);
    }
  }

  /**
   * Addition `j` is appended exactly when its key is neither among the
   * cached keys nor among the keys of the additions before it.
   */
  lemma MergeStep(existing: seq<Exhibition>, additions: seq<Exhibition>, j: nat)
    requires j < |additions|
    ensures KeyOf(additions[j]) !in KeySet(existing) + KeySet(additions[..j]) ==>
      Merge(existing, additions[..j + 1]) == Merge(existing, additions[..j]) + [additions[j]]
    ensures KeyOf(additions[j]) in KeySet(existing) + KeySet(additions[..j]) ==>
      Merge(existing, additions[..j + 1]) == Merge(existing, additions[..j])
  {
    assert additions[..j + 1][..j] == additions[..j];
    MergeKeySet(existing, additions[..j]);
  }

  /** Additions whose keys are all present already change nothing. */
  lemma {:induction false} MergeOfKnownKeys(existing: seq<Exhibition>, additions: seq<Exhibition>)
    requires KeySet(additions) <= KeySet(existing)
    ensures Merge(existing, additions) == existing
  {
    if additions != [] {
      KeySetOfLast(additions);
      MergeOfKnownKeys(existing, additions[..|additions| - 1]);
    }
  }

  /** Merging the same additions a second time adds nothing. */
  lemma MergeIdempotent(existing: seq<Exhibition>, additions: seq<Exhibition>)
    ensures Merge(Merge(existing, additions), additions) == Merge(existing, additions)
  {
    MergeKeySet(existing, additions);
    MergeOfKnownKeys(Merge(existing, additions), additions);
  }

  /**
   * When the cached keys are distinct, the merge is the first-seen-wins
   * deduplication of the cached list followed by the additions.
   */
  lemma {:induction false} MergeIsFirstOccurrences(existing: seq<Exhibition>, additions: seq<Exhibition>)
    requires DistinctKeys(existing)
    ensures Merge(existing, additions) == FirstOccurrences(existing + additions)
  {
    if additions == [] {
      FirstOccurrencesOfEqual(existing + additions, existing);
      DistinctIsFixed(existing);
    } else {
      var n := |additions| - 1;
      MergeIsFirstOccurrences(existing, additions[..n]);
      FirstOccurrencesOfConcatLast(existing, additions);
    }
  }

  lemma FirstOccurrencesOfConcatLast(existing: seq<Exhibition>, additions: seq<Exhibition>)
    requires additions != []
    ensures FirstOccurrences(existing + additions) ==
      AddIfNew(FirstOccurrences(existing + additions[..|additions| - 1]), additions[|additions| - 1])
  {
    var ys := existing + additions;
    FirstOccurrencesOfLast(ys);
    DropLastOfConcat(existing, additions);
    FirstOccurrencesOfEqual(ys[..|ys| - 1], existing + additions[..|additions| - 1]);
  }


  /**
   * `MANUAL_EXHIBITIONS`: the ten entries in source order. Each entry is
   * taken from its own method, whose contract gives its final characters
   * and dates; the list is built in two halves.
   */
  method ManualExhibitionsList() returns (manual: seq<Exhibition>)
    ensures |manual| == 10
    ensures DistinctKeys(manual)
    ensures forall e :: e in manual ==> DatedInOrder(e)
  {
    manual := ManualFirstHalf();
    manual := ManualSecondHalf(manual);
  }

  /** The first five manual entries, with the final characters they use. */
  method ManualFirstHalf() returns (manual: seq<Exhibition>)
    ensures |manual| == 5 && Listed(manual, {('n', 'h'), ('p', 'y'), ('s', 'r'), (')', 'y'), ('y', 'y')})
  {
    manual := [];
    ghost var seen: set<(char, char)> := {};
    var e0 := LateAtNightEntry();
    AppendApart(manual, seen, e0);
    manual, seen := manual + [e0], seen + {('n', 'h')};
    var e1 := FeedbackLoopEntry();
    AppendApart(manual, seen, e1);
    manual, seen := manual + [e1], seen + {('p', 'y')};
    var e2 := GridsEntry();
    AppendApart(manual, seen, e2);
    manual, seen := manual + [e2], seen + {('s', 'r')};
    var e3 := SoloExhibitionEntry();
    AppendApart(manual, seen, e3);
    manual, seen := manual + [e3], seen + {(')', 'y')};
    var e4 := DelayedGravityEntry();
    AppendApart(manual, seen, e4);
    manual, seen := manual + [e4], seen + {('y', 'y')};
  }

  /** The last five manual entries appended to the first five. */
  method ManualSecondHalf(firstHalf: seq<Exhibition>) returns (manual: seq<Exhibition>)
    requires |firstHalf| == 5 && Listed(firstHalf, {('n', 'h'), ('p', 'y'), ('s', 'r'), (')', 'y'), ('y', 'y')})
    ensures |manual| == 10 && Listed(manual, {('n', 'h'), ('p', 'y'), ('s', 'r'), (')', 'y'), ('y', 'y'), ('3', 'y'), ('5', 'y'), ('s', 'y'), ('d', 'n'), ('l', 'h')})
  {
    manual := firstHalf;
    ghost var seen: set<(char, char)> := {('n', 'h'), ('p', 'y'), ('s', 'r'), (')', 'y'), ('y', 'y')};
    var e5 := AMomentInTimeEntry();
    AppendApart(manual, seen, e5);
    manual, seen := manual + [e5], seen + {('3', 'y')};
    var e6 := ThoughtInMaterialEntry();
    AppendApart(manual, seen, e6);
    manual, seen := manual + [e6], seen + {('5', 'y')};
    var e7 := WorksFromThe1960sEntry();
    AppendApart(manual, seen, e7);
    manual, seen := manual + [e7], seen + {('s', 'y')};
    var e8 := BetweenTheClockAndTheBedEntry();
    AppendApart(manual, seen, e8);
    manual, seen := manual + [e8], seen + {('d', 'n')};
    var e9 := GatheringWoolEntry();
    AppendApart(manual, seen, e9);
    manual, seen := manual + [e9], seen + {('l', 'h')};
  }

  /**
   * `add_manual_exhibitions`: load the cache, append each manual entry whose
   * key is new, and save the list whatever was added. `added` is the count
   * the function reports; `manual` names the entries it merged.
   */
  method AddManualExhibitions(cache: CacheStore) returns (added: nat, ghost manual: seq<Exhibition>)
    modifies cache
    ensures |manual| == 10 && DistinctKeys(manual)
    ensures cache.file == Records(ToDicts(Merge(old(cache.Load()), manual)))
    ensures cache.Load() == Merge(old(cache.Load()), manual)
    ensures added == |cache.Load()| - |old(cache.Load())|
    ensures old(cache.Load()) == [] ==> cache.Load() == manual && added == 10
  {
    var entries := ManualExhibitionsList();
    manual := entries;
    var existing := cache.Load();
    ghost var cached := existing;
    var existingKeys := set e | e in existing :: (Lower(e.title), Lower(e.gallery));
    added := 0;
    var i := 0;
    while i < |entries|
      invariant i <= |entries|
      invariant existing == Merge(cached, entries[..i])
      invariant existingKeys == KeySet(existing)
      invariant added == |existing| - |cached|
    {
      var ex := entries[i];
      var key := (Lower(ex.title), Lower(ex.gallery));
      MergeStep(cached, entries, i);
      MergeKeySet(cached, entries[..i]);
      if key !in existingKeys {
        KeySetOfAppend(existing, ex);
        existing := existing + [ex];
        existingKeys := existingKeys + {key};
        added := added + 1;
      }
      i := i + 1;
    }
    assert entries[..i] == entries;
    if cached == [] {
      MergeIntoEmpty(entries);
    }
    cache.Save(existing);
  }

  /** Distinct additions merged into an empty cache are all added, in order. */
  lemma MergeIntoEmpty(additions: seq<Exhibition>)
    requires DistinctKeys(additions)
    ensures Merge([], additions) == additions
  {
    MergeIsFirstOccurrences([], additions);
    assert [] + additions == additions;
    DistinctIsFixed(additions);
  }
}
