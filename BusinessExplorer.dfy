/**
  The catalog explorer: the category choices ("All", then every catalog category once, in
  the order a `Set` keeps them, which is first appearance), the category-and-difficulty
  filter, and the scalability and difficulty badge colours.
*/
module BusinessExplorer {
  import opened Catalog

  /** `Array.from(new Set(xs))`: each element once, where it first appears. */
  function Dedup(xs: seq<string>): seq<string> {
    if xs == [] then []
    else
      var d := Dedup(xs[..|xs| - 1]);
      if xs[|xs| - 1] in d then d else d + [xs[|xs| - 1]]
  }

  /** The position of the first `x` in `xs`. */
  function IndexOf(xs: seq<string>, x: string): (i: nat)
    requires x in xs
    ensures i < |xs| && xs[i] == x && x !in xs[..i]
  {
    if xs[0] == x then 0
    else
      assert x in xs[1..];
      var k := IndexOf(xs[1..], x);
      assert xs[..k + 1] == [xs[0]] + xs[1..][..k];
      k + 1
  }

  function CategoryList(catalog: seq<BusinessModel>): seq<string> {
    seq(|catalog|, i requires 0 <= i < |catalog| => catalog[i].category)
  }

  /** `['All', ...Array.from(new Set(businessModels.map(model => model.category)))]`. */
  function Categories(catalog: seq<BusinessModel>): seq<string> {
    ["All"] + Dedup(CategoryList(catalog))
  }

  /** The filter test for one model. */
  predicate Keep(model: BusinessModel, category: string, difficulty: string) {
    (category == "All" || model.category == category)
    && (difficulty == "All" || model.difficulty == difficulty)
  }

  /** `businessModels.filter(...)`. */
  function FilterModels(catalog: seq<BusinessModel>, category: string, difficulty: string): seq<BusinessModel> {
    if catalog == [] then []
    else (if Keep(catalog[0], category, difficulty) then [catalog[0]] else [])
         + FilterModels(catalog[1..], category, difficulty)
  }

  /** `s` is `t` with some entries dropped, the rest in their order. */
  predicate Subsequence(s: seq<BusinessModel>, t: seq<BusinessModel>)
    decreases |t|
  {
    if s == [] then true
    else if t == [] then false
    else if s[0] == t[0] then Subsequence(s[1..], t[1..])
    else Subsequence(s, t[1..])
  }

  // ---------------------------------------------------------------------------------
  // Categories

  /** The de-duplicated list has the same elements, each once, ordered by where each
      first appears. */
  lemma {:induction false} DedupSpec(xs: seq<string>)
    ensures forall x :: x in Dedup(xs) <==> x in xs
    ensures forall i, j :: 0 <= i < j < |Dedup(xs)| ==> Dedup(xs)[i] != Dedup(xs)[j]
    ensures forall i, j :: 0 <= i < j < |Dedup(xs)| ==> IndexOf(xs, Dedup(xs)[i]) < IndexOf(xs, Dedup(xs)[j])
  {
    if xs != [] {
      var init, last := xs[..|xs| - 1], xs[|xs| - 1];
      DedupSpec(init);
      var d := Dedup(init);
      assert xs == init + [last];
      forall y | y in init ensures IndexOf(xs, y) == IndexOf(init, y) {
        IndexOfPrefix(init, last, y);
      }
      if last !in d {
        assert IndexOf(xs, last) == |init| by {
          assert xs[..|init|] == init;
        }
        forall i | 0 <= i < |d| ensures IndexOf(xs, d[i]) < IndexOf(xs, last) {
          assert d[i] in init;
        }
      }
    }
  }

  /** Appending an element does not move the first position of one already present. */
  lemma IndexOfPrefix(init: seq<string>, last: string, y: string)
    requires y in init
    ensures IndexOf(init + [last], y) == IndexOf(init, y)
  {
    var i := IndexOf(init, y);
    var s := init + [last];
    var k := IndexOf(s, y);
    forall j | 0 <= j < k ensures s[j] != y {
      assert s[..k][j] == s[j];
    }
    forall j | 0 <= j < i ensures init[j] != y {
      assert init[..i][j] == init[j];
    }
    assert s[i] == y;
    assert k <= i;
    assert init[k] == s[k];
  }

  /** The choices start with "All", then list every catalog category once, in order of
      first appearance in the catalog. */
  lemma CategoriesSpec(catalog: seq<BusinessModel>)
    ensures var cs, d := Categories(catalog), Dedup(CategoryList(catalog));
            cs[0] == "All" && cs[1..] == d
            && (forall c :: c in d <==> c in CategoryList(catalog))
            && (forall m :: m in catalog ==> m.category in d)
            && (forall c :: c in d ==> exists m :: m in catalog && m.category == c)
            && (forall i, j :: 0 <= i < j < |d| ==> d[i] != d[j])
            && (forall i, j :: 0 <= i < j < |d| ==> IndexOf(CategoryList(catalog), d[i]) < IndexOf(CategoryList(catalog), d[j]))
  {
    var names := CategoryList(catalog);
    DedupSpec(names);
    assert ([("All")] + Dedup(names))[1..] == Dedup(names);
    forall m | m in catalog ensures m.category in Dedup(names) {
      var i :| 0 <= i < |catalog| && catalog[i] == m;
      assert names[i] == m.category;
    }
    forall c | c in Dedup(names) ensures exists m :: m in catalog && m.category == c {
      var i :| 0 <= i < |names| && names[i] == c;
      assert catalog[i] in catalog;
    }
  }

  // ---------------------------------------------------------------------------------
  // The filter

  /** A model is kept exactly when it passes both tests; the result is an
      order-preserving subsequence of the catalog, no longer than it. */
  lemma {:induction false} FilterSpec(catalog: seq<BusinessModel>, category: string, difficulty: string)
    ensures forall m :: m in FilterModels(catalog, category, difficulty) <==> m in catalog && Keep(m, category, difficulty)
    ensures Subsequence(FilterModels(catalog, category, difficulty), catalog)
    ensures |FilterModels(catalog, category, difficulty)| <= |catalog|
  {
    if catalog != [] {
      var rest := FilterModels(catalog[1..], category, difficulty);
      FilterSpec(catalog[1..], category, difficulty);
      assert catalog == [catalog[0]] + catalog[1..];
      if Keep(catalog[0], category, difficulty) {
        assert ([catalog[0]] + rest)[1..] == rest;
      } else {
        assert [] + rest == rest;
        SubsequenceSkip(rest, catalog);
      }
    }
  }

  /** A subsequence of the tail is a subsequence of the whole. */
  lemma SubsequenceSkip(s: seq<BusinessModel>, t: seq<BusinessModel>)
    requires t != [] && Subsequence(s, t[1..])
    ensures Subsequence(s, t)
    decreases |t|
  {
    if s != [] && s[0] == t[0] && t[1..] != [] {
      SubsequenceTail(s, t[1..]);
      SubsequenceSkip(s[1..], t[1..]);
    }
  }

  /** Dropping the first entry of a subsequence keeps it a subsequence of the tail. */
  lemma SubsequenceTail(s: seq<BusinessModel>, t: seq<BusinessModel>)
    requires s != [] && Subsequence(s, t)
    ensures Subsequence(s[1..], t[1..])
    decreases |t|
  {
    if s[0] != t[0] {
      SubsequenceTail(s, t[1..]);
      SubsequenceSkip(s[1..], t[1..]);
    }
  }

  /** With "All" for both choices the whole catalog is shown. */
  lemma {:induction false} FilterAllAll(catalog: seq<BusinessModel>)
    ensures FilterModels(catalog, "All", "All") == catalog
  {
    if catalog != [] {
      FilterAllAll(catalog[1..]);
      assert catalog == [catalog[0]] + catalog[1..];
    }
  }

  // ---------------------------------------------------------------------------------
  // Badges

  function GetScalabilityColor(scalability: string): string {
    if scalability == "Low" then "bg-red-100 text-red-800"
    else if scalability == "Medium" then "bg-yellow-100 text-yellow-800"
    else if scalability == "High" then "bg-green-100 text-green-800"
    else "bg-gray-100 text-gray-800"
  }

  function GetDifficultyColor(difficulty: string): string {
    if difficulty == "Beginner" then "bg-green-100 text-green-800"
    else if difficulty == "Intermediate" then "bg-yellow-100 text-yellow-800"
    else if difficulty == "Advanced" then "bg-red-100 text-red-800"
    else "bg-gray-100 text-gray-800"
  }

  /** The three difficulty levels get three different badges; any other value gets the
      grey default. */
  lemma DifficultyBadges(difficulty: string)
    ensures GetDifficultyColor("Beginner") != GetDifficultyColor("Intermediate")
    ensures GetDifficultyColor("Intermediate") != GetDifficultyColor("Advanced")
    ensures GetDifficultyColor("Beginner") != GetDifficultyColor("Advanced")
    ensures (GetDifficultyColor(difficulty) == "bg-gray-100 text-gray-800")
            == (difficulty != "Beginner" && difficulty != "Intermediate" && difficulty != "Advanced")
  {
  }

  /** "Very High" has no case of its own: it gets the default grey badge, as the
      e-commerce brand-building model does, while "High" is green. */
  lemma VeryHighIsGrey()
    ensures GetScalabilityColor("Very High") == "bg-gray-100 text-gray-800"
    ensures GetScalabilityColor(EcommerceBrandBuilding.scalability) == GetScalabilityColor("Unknown")
    ensures GetScalabilityColor("High") != GetScalabilityColor("Very High")
  {
  }
}
