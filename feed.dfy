/** The values the shell derives from the pin store's lists (App.tsx): the home-feed
    search filter, the set of saved ids and the detail modal's "is saved" flag. */
module Feed {
  import opened PinTypes
  import opened AsciiText

  /** The filter callback: the pin's prompt, lowered, includes the lowered search term. */
  function Matches(pin: Pin, searchTerm: string): (r: bool)
    ensures r <==> exists i :: OccursAt(ToLower(pin.prompt), ToLower(searchTerm), i)
  {
    IncludesIff(ToLower(pin.prompt), ToLower(searchTerm));
    assert Includes(ToLower(pin.prompt), ToLower(searchTerm))
       <==> exists i :: OccursAt(ToLower(pin.prompt), ToLower(searchTerm), i);
    Includes(ToLower(pin.prompt), ToLower(searchTerm))
  }

  /** `pins.filter(matches)`: the matching pins, in the order of `pins`. */
  function FilterMatching(pins: seq<Pin>, searchTerm: string): (r: seq<Pin>)
    ensures |r| <= |pins|
    ensures forall p :: p in r <==> p in pins && Matches(p, searchTerm)
  {
    if pins == [] then []
    else (if Matches(pins[0], searchTerm) then [pins[0]] else []) + FilterMatching(pins[1..], searchTerm)
  }

  /** `filteredPins`: nothing off the home view; on it, the pins unchanged when the search
      term is empty and the matching pins otherwise. The empty-term shortcut is the
      general filter, since every prompt includes the empty term. */
  function FilteredPins(view: View, pins: seq<Pin>, searchTerm: string): (r: seq<Pin>)
    ensures r == if view == Home then FilterMatching(pins, searchTerm) else []
  {
    if view != Home then []
    else if searchTerm == [] then FilterEmptyTermKeepsAll(pins); pins
    else FilterMatching(pins, searchTerm)
  }

  /** With the empty term every pin matches, so the filter keeps the list as it is. */
  lemma {:induction false} FilterEmptyTermKeepsAll(pins: seq<Pin>)
    ensures FilterMatching(pins, []) == pins
  {
    if pins != [] {
      assert ToLower([]) == [];
      assert Matches(pins[0], []);
      FilterEmptyTermKeepsAll(pins[1..]);
      assert pins == [pins[0]] + pins[1..];
    }
  }

  /** `idx` places each element of `a` at a strictly later position of `b`. */
  ghost predicate Embedding<T>(idx: seq<nat>, a: seq<T>, b: seq<T>) {
    && |idx| == |a|
    && (forall k :: 0 <= k < |idx| ==> idx[k] < |b| && a[k] == b[idx[k]])
    && (forall k, l :: 0 <= k < l < |idx| ==> idx[k] < idx[l])
  }

  /** `a` is `b` with some elements dropped and the rest in their original order. */
  ghost predicate IsSubsequence<T>(a: seq<T>, b: seq<T>) {
    exists idx: seq<nat> :: Embedding(idx, a, b)
  }

  /** Every position of `idx`, one further on. */
  function Shifted(idx: seq<nat>): seq<nat> {
    seq(|idx|, k requires 0 <= k < |idx| => idx[k] + 1)
  }

  /** An embedding survives putting one more element in front of the longer sequence. */
  lemma EmbeddingSkip<T>(idx: seq<nat>, a: seq<T>, b: seq<T>, x: T)
    requires Embedding(idx, a, b)
    ensures Embedding(Shifted(idx), a, [x] + b)
  {
  }

  /** ... and putting the same element in front of both. */
  lemma EmbeddingKeep<T>(idx: seq<nat>, a: seq<T>, b: seq<T>, x: T)
    requires Embedding(idx, a, b)
    ensures Embedding([0] + Shifted(idx), [x] + a, [x] + b)
  {
  }

  /** The filter keeps pins in their original relative order. */
  lemma {:induction false} FilterIsSubsequence(pins: seq<Pin>, searchTerm: string)
    ensures IsSubsequence(FilterMatching(pins, searchTerm), pins)
  {
    var r := FilterMatching(pins, searchTerm);
    if pins == [] {
      assert Embedding([], r, pins);
    } else {
      var rest := FilterMatching(pins[1..], searchTerm);
      FilterIsSubsequence(pins[1..], searchTerm);
      var idx :| Embedding(idx, rest, pins[1..]);
      assert pins == [pins[0]] + pins[1..];
      if Matches(pins[0], searchTerm) {
        assert r == [pins[0]] + rest;
        EmbeddingKeep(idx, rest, pins[1..], pins[0]);
        assert Embedding([0] + Shifted(idx), r, pins);
      } else {
        assert r == rest;
        EmbeddingSkip(idx, rest, pins[1..], pins[0]);
        assert Embedding(Shifted(idx), r, pins);
      }
    }
  }

  /** Each matching pin is kept as often as it occurs; a pin that does not match is dropped. */
  lemma {:induction false} FilterMultiplicity(pins: seq<Pin>, searchTerm: string, p: Pin)
    ensures multiset(FilterMatching(pins, searchTerm))[p]
         == if Matches(p, searchTerm) then multiset(pins)[p] else 0
  {
    if pins != [] {
      FilterMultiplicity(pins[1..], searchTerm, p);
      var head := if Matches(pins[0], searchTerm) then [pins[0]] else [];
      assert FilterMatching(pins, searchTerm) == head + FilterMatching(pins[1..], searchTerm);
      assert pins == [pins[0]] + pins[1..];
    }
  }

  /** A term that no prompt includes filters every pin out. */
  lemma {:induction false} FilterNoHits(pins: seq<Pin>, searchTerm: string)
    requires forall p :: p in pins ==> !Matches(p, searchTerm)
    ensures FilterMatching(pins, searchTerm) == []
  {
    if pins != [] {
      assert pins[0] in pins;
      FilterNoHits(pins[1..], searchTerm);
    }
  }

  /** Filtering a concatenation filters each part. */
  lemma {:induction false} FilterAppend(a: seq<Pin>, b: seq<Pin>, searchTerm: string)
    ensures FilterMatching(a + b, searchTerm) == FilterMatching(a, searchTerm) + FilterMatching(b, searchTerm)
  {
    if a != [] {
      assert (a + b)[1..] == a[1..] + b;
      FilterAppend(a[1..], b, searchTerm);
    } else {
      assert a + b == b;
    }
  }

  /** Search terms that lower to the same string filter alike. */
  lemma {:induction false} FilterCaseInsensitive(pins: seq<Pin>, t1: string, t2: string)
    requires ToLower(t1) == ToLower(t2)
    ensures FilterMatching(pins, t1) == FilterMatching(pins, t2)
  {
    if pins != [] {
      FilterCaseInsensitive(pins[1..], t1, t2);
    }
  }

  /** Searching for a term is searching for its lowered form. */
  lemma FilterLoweredTerm(pins: seq<Pin>, searchTerm: string)
    ensures FilterMatching(pins, ToLower(searchTerm)) == FilterMatching(pins, searchTerm)
  {
    ToLowerIdempotent(searchTerm);
    FilterCaseInsensitive(pins, ToLower(searchTerm), searchTerm);
  }

  /** The home feed does not depend on the case of the search term. */
  lemma FilteredPinsCaseInsensitive(view: View, pins: seq<Pin>, t1: string, t2: string)
    requires ToLower(t1) == ToLower(t2)
    ensures FilteredPins(view, pins, t1) == FilteredPins(view, pins, t2)
  {
    FilterCaseInsensitive(pins, t1, t2);
  }

  lemma ExampleFoxMatches(fox: Pin)
    requires fox.prompt == "a red fox"
    ensures Matches(fox, "red")
  {
    LowerOfLowercase("red");
    LowerOfLowercase(fox.prompt);
    assert OccursAt(fox.prompt, "red", 2);
    IncludesIff(fox.prompt, "red");
  }

  lemma ExampleCarMatches(car: Pin)
    requires car.prompt == "Red Sports Car"
    ensures Matches(car, "red")
  {
  }

  lemma ExampleSkyMisses(sky: Pin)
    requires sky.prompt == "blue sky"
    ensures !Matches(sky, "red")
  {
    LowerOfLowercase("red");
    LowerOfLowercase(sky.prompt);
    IncludesIff(sky.prompt, "red");
    forall i | 0 <= i <= |sky.prompt| - 3 ensures !OccursAt(sky.prompt, "red", i) {
      assert sky.prompt[i..i + 3][0] == sky.prompt[i] != 'r';
    }
  }

  /** The worked example: "red" keeps "a red fox" and "Red Sports Car", in that order,
      and drops "blue sky". */
  lemma FilterExample(fox: Pin, sky: Pin, car: Pin)
    requires fox.prompt == "a red fox" && sky.prompt == "blue sky" && car.prompt == "Red Sports Car"
    ensures FilteredPins(Home, [fox, sky, car], "red") == [fox, car]
  {
    ExampleFoxMatches(fox);
    ExampleSkyMisses(sky);
    ExampleCarMatches(car);
    assert [car][1..] == [];
    assert FilterMatching([car], "red") == [car] + FilterMatching([], "red");
    assert [sky, car][1..] == [car];
    assert FilterMatching([sky, car], "red") == FilterMatching([car], "red");
    assert [fox, sky, car][1..] == [sky, car];
    assert FilterMatching([fox, sky, car], "red") == [fox] + FilterMatching([sky, car], "red");
  }

  /** `new Set(savedPins.map(p => p.id))`: the ids of the saved pins. */
  function SavedPinIds(savedPins: seq<Pin>): (ids: set<string>)
    ensures forall id :: id in ids <==> exists i :: 0 <= i < |savedPins| && savedPins[i].id == id
    ensures |ids| <= |savedPins|
  {
    if savedPins == [] then {}
    else {savedPins[0].id} + SavedPinIds(savedPins[1..])
  }

  /** With distinct ids there is one id per saved pin. */
  lemma {:induction false} SavedPinIdsCount(savedPins: seq<Pin>)
    requires DistinctIds(savedPins)
    ensures |SavedPinIds(savedPins)| == |savedPins|
  {
    if savedPins != [] {
      var rest := savedPins[1..];
      assert DistinctIds(rest) by {
        forall i, j | 0 <= i < j < |rest| ensures rest[i].id != rest[j].id {
          assert rest[i] == savedPins[i + 1] && rest[j] == savedPins[j + 1];
        }
      }
      SavedPinIdsCount(rest);
      assert savedPins[0].id !in SavedPinIds(rest) by {
        forall i | 0 <= i < |rest| ensures rest[i].id != savedPins[0].id {
          assert rest[i] == savedPins[i + 1];
        }
      }
    }
  }

  /** `savedPins.some(p => p.id === pin.id)`: the detail modal's "is saved" flag. */
  function IsSaved(pin: Pin, savedPins: seq<Pin>): (saved: bool)
    ensures saved <==> exists i :: 0 <= i < |savedPins| && savedPins[i].id == pin.id
  {
    savedPins != [] && (savedPins[0].id == pin.id || IsSaved(pin, savedPins[1..]))
  }

  /** The modal's flag and the grid's id set agree on every pin. */
  lemma IsSavedAgreesWithIds(pin: Pin, savedPins: seq<Pin>)
    ensures IsSaved(pin, savedPins) <==> pin.id in SavedPinIds(savedPins)
  {
  }
}
