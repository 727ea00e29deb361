/**
 * The mood catalog (lib/moods.ts): a fixed table of eight moods, each a preset
 * of genre filters, an optional minimum rating and an optional sort order,
 * with lookup by id and selection by genre.
 */
module Moods {

  import opened Wrappers
  import Seqs

  /** A rating threshold kept in tenths of a point: 6.5 is 65, 7.0 is 70. */
  type Tenths = nat

  datatype Mood = Mood(
    id: string,
    emoji: string,
    labelText: string,
    description: string,
    color: string,
    genreIds: seq<int>,
    keywords: Option<seq<int>>,
    sortBy: Option<string>,
    voteAverageMin: Option<Tenths>)

  // Genre ids of the movie database: 12 Adventure, 14 Fantasy, 16 Animation,
  // 18 Drama, 27 Horror, 28 Action, 35 Comedy, 53 Thriller, 99 Documentary,
  // 878 Science Fiction, 9648 Mystery, 10749 Romance, 10751 Family.

  const Catalog: seq<Mood> := [
    Mood("cry", "\U{1F622}", "I want to cry", "Emotional dramas and tearjerkers",
         "from-blue-500 to-indigo-600", [18, 10749], None, None, Some(70)),
    Mood("smart", "\U{1F9E0}", "I want to feel smarter", "Mind-bending thrillers and documentaries",
         "from-purple-500 to-violet-600", [99, 9648, 878], None, None, Some(75)),
    Mood("explode", "\U{1F4A5}", "I want to see things explode", "Action blockbusters and disaster films",
         "from-orange-500 to-red-600", [28, 12], None, Some("popularity.desc"), None),
    Mood("laugh", "\U{1F602}", "I need to laugh", "Comedies and feel-good films",
         "from-yellow-400 to-orange-500", [35], None, None, Some(65)),
    Mood("cozy", "\U{1F319}", "Cozy comfort watch", "Familiar favorites and low-stakes plots",
         "from-amber-400 to-yellow-500", [10751, 35, 16], None, None, Some(65)),
    Mood("reality", "\U{1F92F}", "Make me question reality", "Sci-fi and psychological thrillers",
         "from-pink-500 to-purple-600", [878, 53, 9648], None, None, Some(70)),
    Mood("escape", "\U{1F3C3}", "I want to escape", "Fantasy, adventure, and world-building",
         "from-emerald-500 to-teal-600", [14, 12, 878], None, None, Some(65)),
    Mood("scare", "\U{1F480}", "Scare me", "Horror and suspense",
         "from-gray-700 to-gray-900", [27, 53], None, None, Some(60))
  ]

  /** The first mood of `ms` whose id is `id` (`Array.prototype.find`). */
  function FindById(ms: seq<Mood>, id: string): (r: Option<Mood>)
    ensures r.None? <==> forall m :: m in ms ==> m.id != id
    ensures r.Some? ==> exists k :: 0 <= k < |ms| && ms[k] == r.value && r.value.id == id &&
                                    forall j :: 0 <= j < k ==> ms[j].id != id
  {
    if ms == [] then None
    else if ms[0].id == id then Some(ms[0])
    else
      var r := FindById(ms[1..], id);
      assert r.Some? ==> exists k :: 0 <= k < |ms| - 1 && ms[1..][k] == r.value && r.value.id == id &&
                                     forall j :: 0 <= j < k ==> ms[1..][j].id != id;
      assert r.Some? ==> exists k :: 1 <= k < |ms| && ms[k] == r.value && r.value.id == id &&
                                     forall j :: 0 <= j < k ==> ms[j].id != id;
      r
  }

  /** `getMoodById`: the catalog entry with that id, if there is one. */
  function GetMoodById(id: string): (r: Option<Mood>)
    ensures r.Some? ==> r.value in Catalog && r.value.id == id
    ensures r.None? <==> forall m :: m in Catalog ==> m.id != id
  {
    FindById(Catalog, id)
  }

  /** The moods of `ms` that list genre `g`, in their order in `ms` (`Array.prototype.filter`). */
  function FilterByGenre(ms: seq<Mood>, g: int): (r: seq<Mood>)
    ensures forall m :: m in r <==> m in ms && g in m.genreIds
    ensures forall m :: multiset(r)[m] == if g in m.genreIds then multiset(ms)[m] else 0
    ensures Seqs.IsSubsequence(r, ms)
  {
    if ms == [] then []
    else
      var rest := FilterByGenre(ms[1..], g);
      assert ms == [ms[0]] + ms[1..];
      if g in ms[0].genreIds then
        assert ([ms[0]] + rest)[1..] == rest;
        [ms[0]] + rest
      else
        Seqs.SubsequenceOfTail(rest, ms);
        rest
  }

  /** `getMoodByGenre`: the catalog moods that list genre `g`, in catalog order. */
  function GetMoodByGenre(g: int): (r: seq<Mood>)
    ensures forall m :: m in r <==> m in Catalog && g in m.genreIds
    ensures forall m :: multiset(r)[m] == if g in m.genreIds then multiset(Catalog)[m] else 0
    ensures Seqs.IsSubsequence(r, Catalog)
  {
    FilterByGenre(Catalog, g)
  }

  /** The catalog holds exactly the eight moods, in this order, and no id twice. */
  lemma CatalogIds()
    ensures |Catalog| == 8
    ensures Catalog[0].id == "cry" && Catalog[1].id == "smart" && Catalog[2].id == "explode"
    ensures Catalog[3].id == "laugh" && Catalog[4].id == "cozy" && Catalog[5].id == "reality"
    ensures Catalog[6].id == "escape" && Catalog[7].id == "scare"
    ensures forall i, j :: 0 <= i < j < |Catalog| ==> Catalog[i].id != Catalog[j].id
  {
  }

  /** `find` stops at the first mood with the id asked for. */
  lemma {:induction false} FindByIdAt(ms: seq<Mood>, k: nat)
    requires k < |ms|
    requires forall j :: 0 <= j < k ==> ms[j].id != ms[k].id
    ensures FindById(ms, ms[k].id) == Some(ms[k])
  {
    if k > 0 {
      assert ms[0].id != ms[k].id;
      assert ms[k] == ms[1..][k - 1];
      FindByIdAt(ms[1..], k - 1);
    }
  }

  /** Every catalog mood is found by its own id. */
  lemma GetMoodByIdOfCatalog(m: Mood)
    requires m in Catalog
    ensures GetMoodById(m.id) == Some(m)
  {
    CatalogIds();
    var k :| 0 <= k < |Catalog| && Catalog[k] == m;
    FindByIdAt(Catalog, k);
  }

  /** Every mood filters on at least one genre. */
  lemma GenresNonEmpty()
    ensures forall m :: m in Catalog ==> m.genreIds != []
  {
  }

  /** Only "explode" sets a sort order, "popularity.desc", and it is also the
      only mood without a minimum rating. */
  lemma ExplodeIsTheOnlyPopularitySort()
    ensures forall m :: m in Catalog ==> (m.sortBy.Some? <==> m.id == "explode")
    ensures forall m :: m in Catalog && m.sortBy.Some? ==> m.sortBy.value == "popularity.desc"
    ensures forall m :: m in Catalog ==> (m.voteAverageMin.None? <==> m.id == "explode")
  {
  }

  /** What the route relies on for each catalog mood: a non-empty id, at least
      one genre, a non-empty sort order when there is one, and a rating floor above zero. */
  lemma CatalogMoodShape(m: Mood)
    requires m in Catalog
    ensures m.id != "" && m.genreIds != []
    ensures m.sortBy.Some? ==> m.sortBy.value == "popularity.desc"
    ensures m.voteAverageMin.Some? ==> m.voteAverageMin.value > 0
  {
    var k :| 0 <= k < |Catalog| && Catalog[k] == m;
  }

  /** "laugh" is comedy only, with a 6.5 floor and no sort order of its own. */
  lemma LaughMood()
    ensures GetMoodById("laugh").Some?
    ensures GetMoodById("laugh").value.genreIds == [35]
    ensures GetMoodById("laugh").value.voteAverageMin == Some(65)
    ensures GetMoodById("laugh").value.sortBy == None
  {
    GetMoodByIdOfCatalog(Catalog[3]);
  }
}
