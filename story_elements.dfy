/**
 * The story-element vote store: a JSON file holding a list of records
 * `{id, category, element, love, skip}`, seeded once from a fixed catalog of
 * six categories of eight prompts, read whole by every query, and rewritten
 * whole by every love/skip vote.
 *
 * The file is the field `file` of a `StoryStore`; every read helper is a
 * pure function of the list that reading the file gives (`StoryStore.Read`).
 */
module StoryElements {
  import opened Wrappers
  import PyStrings

  datatype StoryElement = StoryElement(id: int, category: string, element: string, love: nat, skip: nat)

  /** The two vote counters, the `field` argument of the voting function. */
  datatype Counter = Love | Skip

  function Count(e: StoryElement, f: Counter): nat
  {
    match f
    case Love => e.love
    case Skip => e.skip
  }

  function Other(f: Counter): Counter
  {
    match f
    case Love => Skip
    case Skip => Love
  }

  /** The record with counter `f` raised by one. */
  function Incremented(e: StoryElement, f: Counter): (r: StoryElement)
    ensures Count(r, f) == Count(e, f) + 1 && Count(r, Other(f)) == Count(e, Other(f))
    ensures r.id == e.id && r.category == e.category && r.element == e.element
  {
    match f
    case Love => e.(love := e.love + 1)
    case Skip => e.(skip := e.skip + 1)
  }

  /** Ids are the positions: record `i` has id `i`. */
  predicate DenseIds(s: seq<StoryElement>)
  {
    forall i :: 0 <= i < |s| ==> s[i].id == i
  }

  // ---------------------------------------------------------------------------
  // The seed catalog
  // ---------------------------------------------------------------------------

  datatype CatalogCategory = CatalogCategory(name: string, texts: seq<string>)

  /** The built-in catalog, in the order of its literal (a Python dict keeps insertion order). */
  const Catalog: seq<CatalogCategory> := [
    CatalogCategory("Main Plot Hooks", [
      "A mysterious plague is turning villagers to stone",
      "An ancient prophecy predicts the chosen one's arrival",
      "The king has been replaced by a doppelganger",
      "A dragon demands tribute from the local village",
      "Strange portals are opening across the realm",
      "An old friend sends a desperate letter asking for help",
      "A valuable artifact has been stolen from the temple",
      "The moon hasn't risen for three nights in a row"]),
    CatalogCategory("Side Quests", [
      "Help the baker retrieve stolen recipes from bandits",
      "Investigate mysterious sounds in the abandoned mill",
      "Escort a merchant caravan through dangerous territory",
      "Find a rare herb to cure the herbalist's sick child",
      "Solve the riddle of the ancient standing stones",
      "Help reunite two star-crossed lovers from rival families",
      "Track down a mischievous sprite causing havoc in town",
      "Recover a family heirloom from a haunted mansion"]),
    CatalogCategory("Character Motivations", [
      "Seeking revenge for a loved one's death",
      "Trying to prove themselves to their family",
      "Running from a dark past",
      "Searching for a missing person",
      "Driven by insatiable curiosity",
      "Protecting their homeland from danger",
      "Seeking redemption for past mistakes",
      "Pursuing wealth and fame"]),
    CatalogCategory("Locations", [
      "A bustling port city with diverse cultures",
      "An ancient forest filled with magical creatures",
      "A mysterious floating island in the sky",
      "Underground caverns with bioluminescent fungi",
      "A desert oasis hiding ancient secrets",
      "A frozen tundra with ice castles",
      "A volcanic region with fire elementals",
      "A haunted swamp with will-o'-wisps"]),
    CatalogCategory("NPCs", [
      "A wise old wizard with a mysterious past",
      "A cunning thief with a heart of gold",
      "A gruff blacksmith hiding a gentle soul",
      "A cheerful innkeeper who knows everyone's secrets",
      "A noble knight struggling with their vows",
      "A street urchin with surprising knowledge",
      "A eccentric inventor creating magical devices",
      "A mysterious fortune teller who speaks in riddles"]),
    CatalogCategory("Twists", [
      "The villain is actually trying to prevent a greater evil",
      "The quest giver has been lying about their true intentions",
      "The artifact is cursed and corrupts those who possess it",
      "Time is running backwards in this location",
      "The party member is secretly a spy",
      "The monster is actually an enchanted person",
      "The treasure map leads to a trap",
      "The prophecy was a trick to manipulate events"])
  ]

  /** Entries per category, records in the seeded store, and the priming loop counts. */
  const CategorySize := 8
  const SeedSize := 48
  const PrimeLoves := 15
  const PrimeSkips := 8

  /** The records the inner loop appends for one category, numbered from `start`. */
  function CategoryRecords(c: CatalogCategory, start: nat): (r: seq<StoryElement>)
    ensures |r| == |c.texts|
    ensures forall k :: 0 <= k < |r| ==> r[k] == StoryElement(start + k, c.name, c.texts[k], 0, 0)
  {
    seq(|c.texts|, k requires 0 <= k < |c.texts| => StoryElement(start + k, c.name, c.texts[k], 0, 0))
  }

  /**
   * The unprimed list the nested loops build: every catalog entry in order,
   * numbered by the running `item_id`, with both counters at zero.
   */
  function SeedRecords(cats: seq<CatalogCategory>): (r: seq<StoryElement>)
    ensures DenseIds(r)
    ensures forall i :: 0 <= i < |r| ==> r[i].love == 0 && r[i].skip == 0
  {
    if cats == [] then []
    else
      var prev := SeedRecords(cats[..|cats| - 1]);
      prev + CategoryRecords(cats[|cats| - 1], |prev|)
  }

  /** Every category of `cats` has the catalog's eight entries. */
  ghost predicate Uniform(cats: seq<CatalogCategory>)
  {
    forall j :: 0 <= j < |cats| ==> |cats[j].texts| == CategorySize
  }

  /** With eight entries per category, the seeded list has eight records per category. */
  lemma {:induction false} SeedRecordsLength(cats: seq<CatalogCategory>)
    requires Uniform(cats)
    ensures |SeedRecords(cats)| == CategorySize * |cats|
  {
    if cats != [] {
      SeedRecordsLength(cats[..|cats| - 1]);
    }
  }

  /** The position of entry `k` of category `j` in the seeded list: the `item_id` it is given. */
  function Slot(j: int, k: int): int
  {
    CategorySize * j + k
  }

  /** Entry `k` of category `j` lies inside a list of `n` categories of eight. */
  lemma SlotBound(j: int, k: int, n: int)
    requires 0 <= j < n && 0 <= k < CategorySize
    ensures 0 <= Slot(j, k) < CategorySize * n
  {
    assert CategorySize * j + CategorySize <= CategorySize * n by {
      assert CategorySize * (n - j) >= CategorySize;
    }
  }

  /** With eight entries per category, record `8 * j + k` is entry `k` of category `j`. */
  lemma {:induction false} SeedRecordAt(cats: seq<CatalogCategory>, j: int, k: int)
    requires Uniform(cats)
    requires 0 <= j < |cats| && 0 <= k < CategorySize
    ensures 0 <= Slot(j, k) < |SeedRecords(cats)|
    ensures SeedRecords(cats)[Slot(j, k)] == StoryElement(Slot(j, k), cats[j].name, cats[j].texts[k], 0, 0)
  {
    SeedRecordsLength(cats);
    SlotBound(j, k, |cats|);
    var init := cats[..|cats| - 1];
    var prev := SeedRecords(init);
    var last := CategoryRecords(cats[|cats| - 1], |prev|);
    assert SeedRecords(cats) == prev + last;
    SeedRecordsLength(init);
    if j < |cats| - 1 {
      assert init[j] == cats[j];
      SeedRecordAt(init, j, k);
    } else {
      assert last[k] == StoryElement(|prev| + k, cats[j].name, cats[j].texts[k], 0, 0);
    }
  }

  /** The catalog has six categories of eight entries: 48 records once seeded. */
  lemma CatalogShape()
    ensures Uniform(Catalog) && |Catalog| == 6 && CategorySize * |Catalog| == SeedSize
  {
  }

  // ---------------------------------------------------------------------------
  // Counters
  // ---------------------------------------------------------------------------

  /**
   * `elements[id][field] += 1`: exactly one counter of exactly one record
   * goes up by one; the other counter, every other record and all ids stay.
   */
  function Bump(s: seq<StoryElement>, id: int, f: Counter): (r: seq<StoryElement>)
    requires 0 <= id < |s|
    ensures |r| == |s|
    ensures Count(r[id], f) == Count(s[id], f) + 1
    ensures Count(r[id], Other(f)) == Count(s[id], Other(f))
    ensures r[id].id == s[id].id && r[id].category == s[id].category && r[id].element == s[id].element
    ensures forall i :: 0 <= i < |s| && i != id ==> r[i] == s[i]
  {
    s[id := Incremented(s[id], f)]
  }

  /** The priming loop: one `Bump` of counter `f` per random draw, in draw order. */
  function Primed(s: seq<StoryElement>, draws: seq<int>, f: Counter): (r: seq<StoryElement>)
    requires forall i :: 0 <= i < |draws| ==> 0 <= draws[i] < |s|
    ensures |r| == |s|
    ensures forall i :: 0 <= i < |s| ==>
      r[i].id == s[i].id && r[i].category == s[i].category && r[i].element == s[i].element
      && Count(r[i], Other(f)) == Count(s[i], Other(f))
  {
    if draws == [] then s
    else Bump(Primed(s, draws[..|draws| - 1], f), draws[|draws| - 1], f)
  }

  /** Sum of counter `f` over the list. */
  function Total(s: seq<StoryElement>, f: Counter): nat
  {
    if s == [] then 0 else Total(s[..|s| - 1], f) + Count(s[|s| - 1], f)
  }

  lemma {:induction false} TotalUpdate(s: seq<StoryElement>, i: int, e: StoryElement, f: Counter)
    requires 0 <= i < |s|
    ensures Total(s[i := e], f) == Total(s, f) - Count(s[i], f) + Count(e, f)
  {
    var t := s[i := e];
    if i < |s| - 1 {
      assert t[..|t| - 1] == s[..|s| - 1][i := e];
      TotalUpdate(s[..|s| - 1], i, e, f);
    } else {
      assert t[..|t| - 1] == s[..|s| - 1];
    }
  }

  lemma {:induction false} TotalZero(s: seq<StoryElement>, f: Counter)
    requires forall i :: 0 <= i < |s| ==> Count(s[i], f) == 0
    ensures Total(s, f) == 0
  {
    if s != [] {
      TotalZero(s[..|s| - 1], f);
    }
  }

  /** Priming adds one vote per draw to counter `f`, whatever the draws, and none to the other. */
  lemma {:induction false} PrimedTotals(s: seq<StoryElement>, draws: seq<int>, f: Counter)
    requires forall i :: 0 <= i < |draws| ==> 0 <= draws[i] < |s|
    ensures Total(Primed(s, draws, f), f) == Total(s, f) + |draws|
    ensures Total(Primed(s, draws, f), Other(f)) == Total(s, Other(f))
  {
    if draws != [] {
      var p := Primed(s, draws[..|draws| - 1], f);
      var id := draws[|draws| - 1];
      PrimedTotals(s, draws[..|draws| - 1], f);
      TotalUpdate(p, id, Incremented(p[id], f), f);
      TotalUpdate(p, id, Incremented(p[id], f), Other(f));
    }
  }

  /** `love` and `skip` never go down: `Bump` is the only write. */
  lemma BumpMonotone(s: seq<StoryElement>, id: int, f: Counter)
    requires 0 <= id < |s|
    ensures forall i, g :: 0 <= i < |s| ==> Count(s[i], g) <= Count(Bump(s, id, f)[i], g)
  {
    forall i, g | 0 <= i < |s| ensures Count(s[i], g) <= Count(Bump(s, id, f)[i], g) {
      if i == id && g == Other(f) {
      }
    }
  }

  /** `n` successive votes for the same record and counter. */
  function Votes(s: seq<StoryElement>, id: int, f: Counter, n: nat): (r: seq<StoryElement>)
    requires 0 <= id < |s|
    ensures |r| == |s|
  {
    if n == 0 then s else Bump(Votes(s, id, f, n - 1), id, f)
  }

  /** `n` votes raise the counter by exactly `n` and change nothing else. */
  lemma {:induction false} VotesAccumulate(s: seq<StoryElement>, id: int, f: Counter, n: nat)
    requires 0 <= id < |s|
    ensures Count(Votes(s, id, f, n)[id], f) == Count(s[id], f) + n
    ensures Count(Votes(s, id, f, n)[id], Other(f)) == Count(s[id], Other(f))
    ensures Votes(s, id, f, n)[id].id == s[id].id
    ensures forall i :: 0 <= i < |s| && i != id ==> Votes(s, id, f, n)[i] == s[i]
  {
    if n > 0 {
      VotesAccumulate(s, id, f, n - 1);
    }
  }

  // ---------------------------------------------------------------------------
  // The seeded store
  // ---------------------------------------------------------------------------

  /**
   * What the first initialisation writes from the catalog `cats`, given the
   * 15 love draws and 8 skip draws (each an index into the seeded list).
   */
  function InitialElements(cats: seq<CatalogCategory>, loveDraws: seq<int>, skipDraws: seq<int>): (r: seq<StoryElement>)
    requires Uniform(cats)
    requires forall i :: 0 <= i < |loveDraws| ==> 0 <= loveDraws[i] < CategorySize * |cats|
    requires forall i :: 0 <= i < |skipDraws| ==> 0 <= skipDraws[i] < CategorySize * |cats|
  {
    SeedRecordsLength(cats);
    Primed(Primed(SeedRecords(cats), loveDraws, Love), skipDraws, Skip)
  }

  /** Record `8 * j + k` of `r` holds entry `k` of category `j` of `cats`, and there are no others. */
  ghost predicate InCatalogOrder(r: seq<StoryElement>, cats: seq<CatalogCategory>)
    requires Uniform(cats)
  {
    && |r| == CategorySize * |cats|
    && forall j, k :: 0 <= j < |cats| && 0 <= k < CategorySize ==>
         r[Slot(j, k)].category == cats[j].name && r[Slot(j, k)].element == cats[j].texts[k]
  }

  /** Position by position, `r` has the ids, categories and texts of `s`. */
  ghost predicate SameLayout(r: seq<StoryElement>, s: seq<StoryElement>)
  {
    && |r| == |s|
    && forall i :: 0 <= i < |r| ==> r[i].id == s[i].id && r[i].category == s[i].category && r[i].element == s[i].element
  }

  /** The unprimed seed is in catalog order. */
  lemma SeedInCatalogOrder(cats: seq<CatalogCategory>)
    requires Uniform(cats)
    ensures InCatalogOrder(SeedRecords(cats), cats)
  {
    SeedRecordsLength(cats);
    var seed := SeedRecords(cats);
    forall j, k | 0 <= j < |cats| && 0 <= k < CategorySize
      ensures seed[Slot(j, k)].category == cats[j].name
            && seed[Slot(j, k)].element == cats[j].texts[k]
    {
      SeedRecordAt(cats, j, k);
    }
  }

  /** Catalog order is a property of the layout alone, so counter changes keep it. */
  lemma LayoutKeepsCatalogOrder(r: seq<StoryElement>, s: seq<StoryElement>, cats: seq<CatalogCategory>)
    requires Uniform(cats) && InCatalogOrder(s, cats) && SameLayout(r, s)
    ensures InCatalogOrder(r, cats)
  {
    forall j, k | 0 <= j < |cats| && 0 <= k < CategorySize
      ensures r[Slot(j, k)].category == cats[j].name
            && r[Slot(j, k)].element == cats[j].texts[k]
    {
      SlotBound(j, k, |cats|);
      var i := Slot(j, k);
      assert s[i].category == cats[j].name && s[i].element == cats[j].texts[k];
      assert r[i].category == s[i].category && r[i].element == s[i].element;
    }
  }

  /**
   * The seeded store has eight records per category in catalog order,
   * record `8 * j + k` being entry `k` of category `j` with id `8 * j + k`.
   */
  lemma InitialElementsLayout(cats: seq<CatalogCategory>, loveDraws: seq<int>, skipDraws: seq<int>)
    requires Uniform(cats)
    requires forall i :: 0 <= i < |loveDraws| ==> 0 <= loveDraws[i] < CategorySize * |cats|
    requires forall i :: 0 <= i < |skipDraws| ==> 0 <= skipDraws[i] < CategorySize * |cats|
    ensures DenseIds(InitialElements(cats, loveDraws, skipDraws))
    ensures InCatalogOrder(InitialElements(cats, loveDraws, skipDraws), cats)
  {
    SeedRecordsLength(cats);
    var seed := SeedRecords(cats);
    var loved := Primed(seed, loveDraws, Love);
    var r := Primed(loved, skipDraws, Skip);
    assert r == InitialElements(cats, loveDraws, skipDraws);
    forall i | 0 <= i < |r|
      ensures r[i].id == seed[i].id && r[i].category == seed[i].category && r[i].element == seed[i].element
    {
      assert r[i].id == loved[i].id && r[i].category == loved[i].category && r[i].element == loved[i].element;
    }
    assert SameLayout(r, seed);
    SeedInCatalogOrder(cats);
    LayoutKeepsCatalogOrder(r, seed, cats);
  }

  /** The priming loops leave exactly one vote per draw: 15 loves and 8 skips in all. */
  lemma InitialElementsTotals(cats: seq<CatalogCategory>, loveDraws: seq<int>, skipDraws: seq<int>)
    requires Uniform(cats)
    requires |loveDraws| == PrimeLoves && |skipDraws| == PrimeSkips
    requires forall i :: 0 <= i < |loveDraws| ==> 0 <= loveDraws[i] < CategorySize * |cats|
    requires forall i :: 0 <= i < |skipDraws| ==> 0 <= skipDraws[i] < CategorySize * |cats|
    ensures Total(InitialElements(cats, loveDraws, skipDraws), Love) == PrimeLoves
    ensures Total(InitialElements(cats, loveDraws, skipDraws), Skip) == PrimeSkips
  {
    SeedRecordsLength(cats);
    var seed := SeedRecords(cats);
    var loved := Primed(seed, loveDraws, Love);
    TotalZero(seed, Love);
    TotalZero(seed, Skip);
    PrimedTotals(seed, loveDraws, Love);
    PrimedTotals(loved, skipDraws, Skip);
    assert Other(Love) == Skip && Other(Skip) == Love;
  }

  /** The nested loops of the initialisation: one record per catalog entry, numbered by a running `item_id`. */
  method BuildRecords(cats: seq<CatalogCategory>) returns (storyData: seq<StoryElement>)
    ensures storyData == SeedRecords(cats)
  {
    storyData := [];
    var itemId := 0;
    for ci := 0 to |cats|
      invariant storyData == SeedRecords(cats[..ci])
      invariant itemId == |storyData|
    {
      var category := cats[ci];
      ghost var before := storyData;
      for ti := 0 to |category.texts|
        invariant storyData == before + CategoryRecords(category, |before|)[..ti]
        invariant itemId == |storyData|
      {
        storyData := storyData + [StoryElement(itemId, category.name, category.texts[ti], 0, 0)];
        itemId := itemId + 1;
      }
      assert cats[..ci + 1][..ci] == cats[..ci];
    }
    assert cats[..|cats|] == cats;
  }

  /** A priming loop: `story_data[id][f] += 1` for each random draw `id`. */
  method PrimeCounter(data: seq<StoryElement>, draws: seq<int>, f: Counter) returns (r: seq<StoryElement>)
    requires forall i :: 0 <= i < |draws| ==> 0 <= draws[i] < |data|
    ensures r == Primed(data, draws, f)
  {
    r := data;
    for i := 0 to |draws|
      invariant r == Primed(data, draws[..i], f)
    {
      assert draws[..i + 1][..i] == draws[..i];
      r := Bump(r, draws[i], f);
    }
    assert draws[..|draws|] == draws;
  }

  // ---------------------------------------------------------------------------
  // The file and its operations
  // ---------------------------------------------------------------------------

  /** The backing file: absent, present but not parseable as the list, or holding the list. */
  datatype StoryFile = Absent | Unreadable | Stored(elements: seq<StoryElement>)

  /** Result of a vote: the new counter value, `None` for an id out of range, or an exception. */
  datatype VoteOutcome = NewCount(value: nat) | NoSuchElement | FileError

  class StoryStore {
    var file: StoryFile

    /** A deployment starts from whatever file is there. */
    constructor(initial: StoryFile)
      ensures file == initial
    {
      file := initial;
    }

    /** Records carry their own position as id. */
    ghost predicate Valid()
      reads this
    {
      file.Stored? ==> DenseIds(file.elements)
    }

    /** Reading the file: a missing or unparseable file reads as the empty list. */
    function Read(): (r: seq<StoryElement>)
      reads this
      ensures file.Stored? ==> r == file.elements
      ensures !file.Stored? ==> r == []
    {
      if file.Stored? then file.elements else []
    }

    /**
     * Seeds the store when no file exists, and does nothing otherwise.
     * `loveDraws` and `skipDraws` are the results of the priming loops'
     * `random.randint(0, len(story_data) - 1)` calls.
     */
    method InitStoryElements(loveDraws: seq<int>, skipDraws: seq<int>)
      requires |loveDraws| == PrimeLoves && |skipDraws| == PrimeSkips
      requires forall i :: 0 <= i < |loveDraws| ==> 0 <= loveDraws[i] < SeedSize
      requires forall i :: 0 <= i < |skipDraws| ==> 0 <= skipDraws[i] < SeedSize
      modifies this
      ensures old(file) != Absent ==> file == old(file)
      ensures old(file) == Absent ==> file == Stored(InitialElements(Catalog, loveDraws, skipDraws))
      ensures old(Valid()) ==> Valid()
    {
      if file != Absent {
        return;
      }
      CatalogShape();
      SeedRecordsLength(Catalog);
      var storyData := BuildRecords(Catalog);
      storyData := PrimeCounter(storyData, loveDraws, Love);
      storyData := PrimeCounter(storyData, skipDraws, Skip);
      InitialElementsLayout(Catalog, loveDraws, skipDraws);
      file := Stored(storyData);
    }

    /**
     * `_vote_story(id, field)`: under the exclusive lock, read the list,
     * and if `id` is in range raise that counter by one, write the list back
     * and return the new value; otherwise write nothing. Opening or parsing
     * a missing or unreadable file raises.
     */
    method Vote(id: int, f: Counter) returns (r: VoteOutcome)
      modifies this
      ensures old(file).Stored? && 0 <= id < |old(file).elements| ==>
        file == Stored(Bump(old(file).elements, id, f))
        && r == NewCount(Count(old(file).elements[id], f) + 1)
      ensures old(file).Stored? && !(0 <= id < |old(file).elements|) ==>
        file == old(file) && r == NoSuchElement
      ensures !old(file).Stored? ==> file == old(file) && r == FileError
      ensures old(Valid()) ==> Valid()
    {
      if !file.Stored? {
        return FileError;
      }
      var elements := file.elements;
      if 0 <= id < |elements| {
        elements := Bump(elements, id, f);
        file := Stored(elements);
        return NewCount(Count(elements[id], f));
      }
      return NoSuchElement;
    }

    /** `addStoryLove(id)` */
    method AddStoryLove(id: int) returns (r: VoteOutcome)
      modifies this
      ensures old(file).Stored? && 0 <= id < |old(file).elements| ==>
        file == Stored(Bump(old(file).elements, id, Love)) && r == NewCount(old(file).elements[id].love + 1)
      ensures old(file).Stored? && !(0 <= id < |old(file).elements|) ==> file == old(file) && r == NoSuchElement
      ensures !old(file).Stored? ==> file == old(file) && r == FileError
    {
      r := Vote(id, Love);
    }

    /** `addStorySkip(id)` */
    method AddStorySkip(id: int) returns (r: VoteOutcome)
      modifies this
      ensures old(file).Stored? && 0 <= id < |old(file).elements| ==>
        file == Stored(Bump(old(file).elements, id, Skip)) && r == NewCount(old(file).elements[id].skip + 1)
      ensures old(file).Stored? && !(0 <= id < |old(file).elements|) ==> file == old(file) && r == NoSuchElement
      ensures !old(file).Stored? ==> file == old(file) && r == FileError
    {
      r := Vote(id, Skip);
    }
  }

  // ---------------------------------------------------------------------------
  // Read helpers, each a function of `StoryStore.Read()`
  // ---------------------------------------------------------------------------

  /** `getStoryElement(id)`: the record at position `id` if in range, `None` otherwise. */
  function GetStoryElement(s: seq<StoryElement>, id: int): (r: Option<StoryElement>)
    ensures r.Some? <==> 0 <= id < |s|
    ensures r.Some? ==> r.value == s[id]
    ensures r.Some? && DenseIds(s) ==> r.value.id == id
  {
    if 0 <= id < |s| then Some(s[id]) else None
  }

  /** `countStoryElements()`: `getStoryElement` succeeds exactly on the ids below the count. */
  function CountStoryElements(s: seq<StoryElement>): (n: nat)
    ensures forall id :: 0 <= id < n <==> GetStoryElement(s, id).Some?
  {
    |s|
  }

  /** `getStoryElementsByCategory(c)`: the records of category `c`, in store order. */
  function GetStoryElementsByCategory(s: seq<StoryElement>, c: string): (r: seq<StoryElement>)
    ensures |r| <= |s|
    ensures forall e :: e in r <==> e in s && e.category == c
  {
    if s == [] then []
    else (if s[0].category == c then [s[0]] else []) + GetStoryElementsByCategory(s[1..], c)
  }

  /** Filtering by category commutes with concatenation, so it keeps the store's order. */
  lemma {:induction false} ByCategoryConcat(s: seq<StoryElement>, t: seq<StoryElement>, c: string)
    ensures GetStoryElementsByCategory(s + t, c) == GetStoryElementsByCategory(s, c) + GetStoryElementsByCategory(t, c)
  {
    if s == [] {
      assert s + t == t;
    } else {
      assert (s + t)[0] == s[0] && (s + t)[1..] == s[1..] + t;
      ByCategoryConcat(s[1..], t, c);
    }
  }

  /**
   * The position `max(elements, key=...)` returns: the left-to-right scan
   * replaces its candidate only on a strictly larger counter, so the result
   * is the first record holding the largest value.
   */
  function MaxIndex(s: seq<StoryElement>, f: Counter): (k: nat)
    requires |s| > 0
    ensures k < |s|
    ensures forall j :: 0 <= j < |s| ==> Count(s[j], f) <= Count(s[k], f)
    ensures forall j :: 0 <= j < k ==> Count(s[j], f) < Count(s[k], f)
  {
    if |s| == 1 then 0
    else
      var k0 := MaxIndex(s[..|s| - 1], f);
      if Count(s[|s| - 1], f) > Count(s[k0], f) then |s| - 1 else k0
  }

  /** `getMostLovedElement` / `getMostSkippedElement` for counter `f`. */
  function MostVoted(s: seq<StoryElement>, f: Counter): (r: Option<StoryElement>)
    ensures r.None? <==> s == []
    ensures r.Some? ==> r.value in s && forall e :: e in s ==> Count(e, f) <= Count(r.value, f)
    ensures r.Some? ==> exists k :: 0 <= k < |s| && s[k] == r.value && forall j :: 0 <= j < k ==> Count(s[j], f) < Count(s[k], f)
  {
    if s == [] then None
    else
      var k := MaxIndex(s, f);
      assert s[k] in s;
      Some(s[k])
  }

  function GetMostLovedElement(s: seq<StoryElement>): Option<StoryElement>
  {
    MostVoted(s, Love)
  }

  function GetMostSkippedElement(s: seq<StoryElement>): Option<StoryElement>
  {
    MostVoted(s, Skip)
  }

  /** `getRandomStoryElement()`: `None` on an empty store, otherwise some record of it. */
  method GetRandomStoryElement(s: seq<StoryElement>) returns (r: Option<StoryElement>)
    ensures r.None? <==> s == []
    ensures r.Some? ==> r.value in s
  {
    if s == [] {
      return None;
    }
    var i :| 0 <= i < |s|;
    return Some(s[i]);
  }

  /** `getCategories()`: the distinct categories present, ascending. */
  function GetCategories(s: seq<StoryElement>): (r: seq<string>)
    ensures PyStrings.StrictlyAscending(r)
    ensures forall c :: c in r <==> exists i :: 0 <= i < |s| && s[i].category == c
  {
    if s == [] then []
    else
      var prev := GetCategories(s[..|s| - 1]);
      PyStrings.Insert(prev, s[|s| - 1].category)
  }

  /** `sorted(set(...))` has one answer: any ascending duplicate-free list of the categories present is `GetCategories`. */
  lemma CategoriesUnique(s: seq<StoryElement>, t: seq<string>)
    requires PyStrings.StrictlyAscending(t)
    requires forall c :: c in t <==> exists i :: 0 <= i < |s| && s[i].category == c
    ensures t == GetCategories(s)
  {
    PyStrings.AscendingUnique(t, GetCategories(s));
  }
}
