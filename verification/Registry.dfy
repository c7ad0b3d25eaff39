/** The provider registry: model tables by provider, the index of bare model ids, and lookups. */
module Registry {
  import opened Messages

  datatype Entry = Entry(id: string, catalogId: string, models: map<string, Model>)

  type Entries = map<string, Entry>

  // Every table is filed under its provider, and every model under its id.
  predicate WellFiled(entries: Entries) {
    forall p | p in entries ::
      entries[p].id == p
      && forall m | m in entries[p].models :: entries[p].models[m].id == m && entries[p].models[m].provider == p
  }

  // ----- lookup by scanning -----

  predicate Lists(entries: Entries, x: Model) {
    x.provider in entries && x.id in entries[x.provider].models && entries[x.provider].models[x.id] == x
  }

  // The form "provider/model", for a provider id without a slash.
  predicate Names(id: string, x: Model) {
    '/' !in x.provider && id == x.provider + "/" + x.id
  }

  // What an id means: the model it names in full, or else the only model of that id.
  ghost predicate Resolves(entries: Entries, id: string, x: Model) {
    && Lists(entries, x)
    && (|| Names(id, x)
        || (x.id == id
            && (forall y | Lists(entries, y) && y.id == id :: y == x)
            && (forall y | Lists(entries, y) :: !Names(id, y))))
  }

  function Cut(id: string): (r: Option<(string, string)>)
    ensures r.None? ==> '/' !in id
    ensures r.Some? ==> '/' !in r.value.0 && id == r.value.0 + "/" + r.value.1
  {
    if id == "" then None
    else if id[0] == '/' then Some(("", id[1..]))
    else
      match Cut(id[1..])
      case None => None
      case Some((before, after)) => Some(([id[0]] + before, after))
  }

  lemma CutOnce(a: string, b: string, c: string, d: string)
    requires '/' !in a && '/' !in c && a + "/" + b == c + "/" + d
    ensures a == c && b == d
  {
    var id := a + "/" + b;
    assert id[|a|] == '/' && (c + "/" + d)[|c|] == '/';
    assert forall i | 0 <= i < |a| :: id[i] == a[i];
    assert forall i | 0 <= i < |c| :: id[i] == (c + "/" + d)[i] == c[i];
    assert |a| == |c|;
    assert a == id[..|a|] && c == (c + "/" + d)[..|c|];
    assert b == id[|a| + 1..] && d == (c + "/" + d)[|c| + 1..];
  }

  // A listed model answers to "provider/id" exactly when its provider's id contains no slash.
  lemma NamespacedExactly(entries: Entries, x: Model)
    requires WellFiled(entries) && Lists(entries, x)
    ensures Resolves(entries, x.provider + "/" + x.id, x) <==> '/' !in x.provider
  {
  }

  lemma ResolvesToOne(entries: Entries, id: string, x: Model, y: Model)
    requires Resolves(entries, id, x) && Resolves(entries, id, y)
    ensures x == y
  {
    if Names(id, x) && Names(id, y) {
      CutOnce(x.provider, x.id, y.provider, y.id);
    }
  }

  // ----- the index -----

  function Owners(entries: Entries, m: string): set<string> {
    set p | p in entries && m in entries[p].models
  }

  // One owner is indexed, more make the id ambiguous.
  predicate Filed(owners: set<string>, m: string, index: map<string, string>, ambiguous: set<string>) {
    && (m in index <==> |owners| == 1)
    && (m in index ==> owners == {index[m]})
    && (m in ambiguous <==> |owners| >= 2)
  }

  ghost predicate Indexed(entries: Entries, index: map<string, string>, ambiguous: set<string>) {
    forall m :: Filed(Owners(entries, m), m, index, ambiguous)
  }

  lemma IndexMeans(entries: Entries, index: map<string, string>, ambiguous: set<string>, m: string)
    requires Indexed(entries, index, ambiguous)
    ensures forall p :: m in index && index[m] == p <==> Owners(entries, m) == {p}
    ensures m in ambiguous <==> exists p, q :: p in Owners(entries, m) && q in Owners(entries, m) && p != q
  {
    var owners := Owners(entries, m);
    assert Filed(owners, m, index, ambiguous);
    if |owners| >= 2 {
      var p :| p in owners;
      assert |owners - {p}| >= 1;
      var q :| q in owners - {p};
    } else if |owners| == 1 {
      assert owners == {index[m]};
    }
  }

  // The owners of an id among the finished providers and the finished ids of one more.
  function OwnersSoFar(entries: Entries, finished: set<string>, p: string, ids: set<string>, m: string): set<string> {
    (set q | q in entries && q in finished && m in entries[q].models) + if m in ids then {p} else {}
  }

  ghost predicate IndexedSoFar(entries: Entries, finished: set<string>, p: string, ids: set<string>,
                               index: map<string, string>, ambiguous: set<string>)
  {
    forall m {:trigger m in index} {:trigger m in ambiguous} ::
      Filed(OwnersSoFar(entries, finished, p, ids, m), m, index, ambiguous)
  }

  function WithOwner(index: map<string, string>, ambiguous: set<string>, m: string, p: string): (map<string, string>, set<string>) {
    if m in index && index[m] != p then (index - {m}, ambiguous + {m})
    else if m !in ambiguous then (index[m := p], ambiguous)
    else (index, ambiguous)
  }

  lemma FiledNext(owners: set<string>, m: string, p: string, index: map<string, string>, ambiguous: set<string>)
    requires p !in owners && Filed(owners, m, index, ambiguous)
    ensures var (i, a) := WithOwner(index, ambiguous, m, p); Filed(owners + {p}, m, i, a)
  {
  }

  lemma FiledStill(owners: set<string>, k: string, m: string, p: string, index: map<string, string>, ambiguous: set<string>)
    requires k != m && Filed(owners, k, index, ambiguous)
    ensures var (i, a) := WithOwner(index, ambiguous, m, p); Filed(owners, k, i, a)
  {
  }

  // One more owner of m.
  lemma IndexNext(entries: Entries, finished: set<string>, p: string, ids: set<string>, m: string,
                  index: map<string, string>, ambiguous: set<string>)
    requires p !in finished && m !in ids && IndexedSoFar(entries, finished, p, ids, index, ambiguous)
    ensures var (i, a) := WithOwner(index, ambiguous, m, p); IndexedSoFar(entries, finished, p, ids + {m}, i, a)
  {
    var (i, a) := WithOwner(index, ambiguous, m, p);
    hide WithOwner, Filed;
    forall k
      ensures Filed(OwnersSoFar(entries, finished, p, ids + {m}, k), k, i, a)
    {
      var before := OwnersSoFar(entries, finished, p, ids, k);
      assert k in index || k !in index;
      if k == m {
        assert OwnersSoFar(entries, finished, p, ids + {m}, k) == before + {p};
        FiledNext(before, m, p, index, ambiguous);
      } else {
        assert OwnersSoFar(entries, finished, p, ids + {m}, k) == before;
        FiledStill(before, k, m, p, index, ambiguous);
      }
    }
  }

  lemma NoOwners(entries: Entries, p: string)
    ensures IndexedSoFar(entries, {}, p, {}, map[], {})
  {
    forall m
      ensures Filed(OwnersSoFar(entries, {}, p, {}, m), m, map[], {})
    {
      assert OwnersSoFar(entries, {}, p, {}, m) == {};
    }
  }

  // A provider without finished ids counts for nothing, and with all its ids it is finished.
  lemma ProviderStarts(entries: Entries, finished: set<string>, p: string, index: map<string, string>, ambiguous: set<string>)
    requires IndexedSoFar(entries, finished, "", {}, index, ambiguous)
    ensures IndexedSoFar(entries, finished, p, {}, index, ambiguous)
  {
    forall m
      ensures Filed(OwnersSoFar(entries, finished, p, {}, m), m, index, ambiguous)
    {
      assert m in index || m !in index;
      assert OwnersSoFar(entries, finished, p, {}, m) == OwnersSoFar(entries, finished, "", {}, m);
    }
  }

  lemma SameOwners(entries: Entries, finished: set<string>, p: string, m: string)
    requires p in entries
    ensures OwnersSoFar(entries, finished + {p}, "", {}, m) == OwnersSoFar(entries, finished, p, entries[p].models.Keys, m)
  {
  }

  lemma ProviderEnds(entries: Entries, finished: set<string>, p: string, index: map<string, string>, ambiguous: set<string>)
    requires p in entries && IndexedSoFar(entries, finished, p, entries[p].models.Keys, index, ambiguous)
    ensures IndexedSoFar(entries, finished + {p}, "", {}, index, ambiguous)
  {
    hide OwnersSoFar, Filed;
    forall m
      ensures Filed(OwnersSoFar(entries, finished + {p}, "", {}, m), m, index, ambiguous)
    {
      assert m in index || m !in index;
      SameOwners(entries, finished, p, m);
    }
  }

  lemma AllOwners(entries: Entries, index: map<string, string>, ambiguous: set<string>)
    requires IndexedSoFar(entries, entries.Keys, "", {}, index, ambiguous)
    ensures Indexed(entries, index, ambiguous)
  {
    forall m
      ensures Filed(Owners(entries, m), m, index, ambiguous)
    {
      assert m in index || m !in index;
      assert OwnersSoFar(entries, entries.Keys, "", {}, m) == Owners(entries, m);
    }
  }

  // ----- a lookup finds what the scan finds -----

  predicate NamedInFull(entries: Entries, id: string) {
    var cut := Cut(id);
    cut.Some? && cut.value.0 in entries && cut.value.1 in entries[cut.value.0].models
  }

  lemma FullName(entries: Entries, id: string)
    requires WellFiled(entries) && NamedInFull(entries, id)
    ensures forall x :: Resolves(entries, id, x) <==> x == entries[Cut(id).value.0].models[Cut(id).value.1]
  {
    var found := entries[Cut(id).value.0].models[Cut(id).value.1];
    assert Lists(entries, found) && Names(id, found);
    forall x
      ensures Resolves(entries, id, x) <==> x == found
    {
      if Resolves(entries, id, x) {
        ResolvesToOne(entries, id, x, found);
      }
    }
  }

  lemma BareId(entries: Entries, index: map<string, string>, ambiguous: set<string>, id: string)
    requires WellFiled(entries) && Indexed(entries, index, ambiguous) && !NamedInFull(entries, id)
    ensures id in index ==> id !in ambiguous && index[id] in entries && id in entries[index[id]].models
    ensures forall x :: Resolves(entries, id, x) <==> id in index && x == entries[index[id]].models[id]
  {
    var owners := Owners(entries, id);
    assert Filed(owners, id, index, ambiguous);
    assert id in index ==> index[id] in owners;
    forall y | Lists(entries, y)
      ensures !Names(id, y)
    {
      if Names(id, y) {
        CutOnce(y.provider, y.id, Cut(id).value.0, Cut(id).value.1);
      }
    }
    forall x
      ensures Resolves(entries, id, x) <==> id in index && x == entries[index[id]].models[id]
    {
      if Resolves(entries, id, x) {
        forall p | p in owners
          ensures p == x.provider
        {
          assert Lists(entries, entries[p].models[id]);
        }
        assert x.provider in owners;
        assert owners == {x.provider};
      } else if id in index && x == entries[index[id]].models[id] {
        forall y | Lists(entries, y) && y.id == id
          ensures y == x
        {
          assert y.provider in owners;
        }
      }
    }
  }

  // ----- the merge of a refresh -----

  // The last model listed under an id counts.
  function ById(listed: seq<Model>): map<string, Model> {
    if listed == [] then map[] else ById(listed[..|listed| - 1])[listed[|listed| - 1].id := listed[|listed| - 1]]
  }

  lemma {:induction false} ByIdFiles(listed: seq<Model>, m: string)
    ensures m in ById(listed) <==> exists i :: 0 <= i < |listed| && listed[i].id == m
    ensures m in ById(listed) ==> ById(listed)[m] in listed && ById(listed)[m].id == m
  {
    if listed != [] {
      var n := |listed| - 1;
      ByIdFiles(listed[..n], m);
      if exists i :: 0 <= i < |listed| && listed[i].id == m {
        var i :| 0 <= i < |listed| && listed[i].id == m;
        assert i < n ==> listed[..n][i].id == m;
      }
      if m in ById(listed[..n]) {
        var i :| 0 <= i < n && listed[..n][i].id == m;
        assert listed[i].id == m;
      } else if m in ById(listed) {
        assert listed[n].id == m;
      }
    }
  }

  // Of several models listed under one id, the last is kept.
  lemma {:induction false} LastListedCounts(listed: seq<Model>, i: nat)
    requires i < |listed| && forall j | i < j < |listed| :: listed[j].id != listed[i].id
    ensures listed[i].id in ById(listed) && ById(listed)[listed[i].id] == listed[i]
  {
    if i < |listed| - 1 {
      LastListedCounts(listed[..|listed| - 1], i);
    }
  }

  method Merge(models: map<string, Model>, listed: seq<Model>) returns (merged: map<string, Model>)
    ensures merged == models + ById(listed)
  {
    merged := models;
    for i := 0 to |listed|
      invariant merged == models + ById(listed[..i])
    {
      merged := merged[listed[i].id := listed[i]];
      assert listed[..i + 1][..i] == listed[..i];
    }
    assert listed[..|listed|] == listed;
  }

  function Merged(entry: Entry, listed: seq<Model>): Entry {
    entry.(models := entry.models + ById(listed))
  }

  function Overlaid(entries: Entries, updates: map<string, seq<Model>>): Entries {
    map p | p in entries :: if p in updates then Merged(entries[p], updates[p]) else entries[p]
  }

  // Updates carry the name of the provider they are for.
  predicate WellNamed(updates: map<string, seq<Model>>) {
    forall p, x | p in updates && x in updates[p] :: x.provider == p
  }

  // A refresh removes no provider and no model, replaces only what it lists again, and adds
  // nothing that is not listed.
  lemma OverlayKeeps(entries: Entries, updates: map<string, seq<Model>>)
    requires WellFiled(entries) && WellNamed(updates)
    ensures WellFiled(Overlaid(entries, updates)) && Overlaid(entries, updates).Keys == entries.Keys
    ensures forall x | Lists(entries, x) ::
      var after := Overlaid(entries, updates)[x.provider].models;
      x.id in after && (after[x.id] == x || (x.provider in updates && after[x.id] in updates[x.provider]))
    ensures forall y | Lists(Overlaid(entries, updates), y) ::
      Lists(entries, y) || (y.provider in updates && y in updates[y.provider])
  {
    forall p, m | p in updates
      ensures m in ById(updates[p]) ==> ById(updates[p])[m] in updates[p] && ById(updates[p])[m].id == m
    {
      ByIdFiles(updates[p], m);
    }
  }

  // A model listed before a refresh still answers to its full name, if its provider's id has no slash.
  lemma NamesOutliveRefresh(entries: Entries, updates: map<string, seq<Model>>, x: Model) returns (y: Model)
    requires WellFiled(entries) && WellNamed(updates) && Lists(entries, x) && '/' !in x.provider
    ensures y.provider == x.provider && y.id == x.id
    ensures Resolves(Overlaid(entries, updates), x.provider + "/" + x.id, y)
  {
    OverlayKeeps(entries, updates);
    y := Overlaid(entries, updates)[x.provider].models[x.id];
    NamespacedExactly(Overlaid(entries, updates), y);
  }

  // ----- the order of a list of models -----

  // Byte by byte.
  predicate Less(a: string, b: string) {
    b != "" && (a == "" || a[0] < b[0] || (a[0] == b[0] && Less(a[1..], b[1..])))
  }

  lemma {:induction false} LessIsTotal(a: string, b: string)
    ensures Less(a, b) || Less(b, a) || a == b
  {
    if a != "" && b != "" && a[0] == b[0] {
      LessIsTotal(a[1..], b[1..]);
      assert a == [a[0]] + a[1..] && b == [b[0]] + b[1..];
    }
  }

  lemma {:induction false} LessIsTransitive(a: string, b: string, c: string)
    requires Less(a, b) && Less(b, c)
    ensures Less(a, c)
  {
    if a != "" && a[0] == b[0] == c[0] {
      LessIsTransitive(a[1..], b[1..], c[1..]);
    }
  }

  predicate Before(x: Model, y: Model) {
    if x.provider == y.provider then Less(x.id, y.id) else Less(x.provider, y.provider)
  }

  predicate SameName(x: Model, y: Model) {
    x.provider == y.provider && x.id == y.id
  }

  lemma BeforeIsTotal(x: Model, y: Model)
    ensures Before(x, y) || Before(y, x) || SameName(x, y)
  {
    LessIsTotal(x.provider, y.provider);
    LessIsTotal(x.id, y.id);
  }

  lemma BeforeIsTransitive(x: Model, y: Model, z: Model)
    requires Before(x, y) && Before(y, z)
    ensures Before(x, z)
  {
    if x.provider == y.provider == z.provider {
      LessIsTransitive(x.id, y.id, z.id);
    } else if x.provider != y.provider && y.provider != z.provider {
      LessIsTransitive(x.provider, y.provider, z.provider);
      LessIsAsymmetric(x.provider, y.provider);
    }
  }

  lemma {:induction false} LessIsAsymmetric(a: string, b: string)
    requires Less(a, b)
    ensures !Less(b, a) && a != b
  {
    if a != "" && a[0] == b[0] {
      LessIsAsymmetric(a[1..], b[1..]);
    }
  }

  // At their first difference a has the smaller character, or it ends.
  predicate FirstDifference(a: string, b: string, k: nat) {
    k <= |a| && k < |b| && a[..k] == b[..k] && (k == |a| || a[k] < b[k])
  }

  lemma AgreesFirst(a: string, b: string, k: nat)
    requires FirstDifference(a, b, k) && k > 0
    ensures a != "" && b != "" && a[0] == b[0]
  {
    assert a[..k][0] == b[..k][0];
  }

  lemma {:induction false} LessExactly(a: string, b: string)
    ensures Less(a, b) <==> exists k: nat :: FirstDifference(a, b, k)
  {
    if b != "" && a != "" && a[0] == b[0] {
      LessExactly(a[1..], b[1..]);
      if Less(a, b) {
        var k: nat :| FirstDifference(a[1..], b[1..], k);
        assert a[..k + 1] == [a[0]] + a[1..][..k] && b[..k + 1] == [b[0]] + b[1..][..k];
        assert FirstDifference(a, b, k + 1);
      }
      if k: nat :| FirstDifference(a, b, k) {
        assert k > 0 && a[1..][..k - 1] == a[..k][1..] && b[1..][..k - 1] == b[..k][1..];
        assert FirstDifference(a[1..], b[1..], k - 1);
      }
    } else {
      if Less(a, b) {
        assert FirstDifference(a, b, 0);
      }
      forall k: nat | FirstDifference(a, b, k)
        ensures k == 0
      {
        if k > 0 {
          AgreesFirst(a, b, k);
        }
      }
    }
  }

  // Models are listed by provider and then by id, each compared byte by byte.
  lemma BeforeExactly(x: Model, y: Model)
    ensures Before(x, y) <==>
      || (exists k: nat :: FirstDifference(x.provider, y.provider, k))
      || (x.provider == y.provider && exists k: nat :: FirstDifference(x.id, y.id, k))
  {
    LessExactly(x.provider, y.provider);
    LessExactly(x.id, y.id);
  }

  // By provider, then by id; no name occurs twice.
  predicate Sorted(models: seq<Model>) {
    forall i, j | 0 <= i < j < |models| :: Before(models[i], models[j])
  }

  predicate NamedOnce(models: seq<Model>) {
    forall i, j | 0 <= i < j < |models| :: !SameName(models[i], models[j])
  }

  lemma InsertSorted(sorted: seq<Model>, k: nat, m: Model)
    requires k <= |sorted| && Sorted(sorted) && forall x | x in sorted :: !SameName(x, m)
    requires forall i | 0 <= i < k :: Before(sorted[i], m)
    requires k < |sorted| ==> !Before(sorted[k], m)
    ensures Sorted(sorted[..k] + [m] + sorted[k..])
  {
    hide Before, SameName;
    forall i | k <= i < |sorted|
      ensures Before(m, sorted[i])
    {
      BeforeIsTotal(sorted[k], m);
      assert sorted[k] in sorted;
      if k < i {
        BeforeIsTransitive(m, sorted[k], sorted[i]);
      }
    }
  }

  // The library sort of the source, which any sort meets: names are distinct.
  method Sort(models: seq<Model>) returns (sorted: seq<Model>)
    requires NamedOnce(models)
    ensures Sorted(sorted) && forall x :: x in sorted <==> x in models
  {
    hide Before, SameName;
    sorted := [];
    for n := 0 to |models|
      invariant Sorted(sorted) && forall x :: x in sorted <==> x in models[..n]
    {
      var m := models[n];
      var k := 0;
      while k < |sorted| && Before(sorted[k], m)
        invariant k <= |sorted| && forall i | 0 <= i < k :: Before(sorted[i], m)
      {
        k := k + 1;
      }
      forall x | x in sorted
        ensures !SameName(x, m)
      {
        var i :| 0 <= i < n && models[..n][i] == x;
        assert !SameName(models[i], models[n]);
      }
      InsertSorted(sorted, k, m);
      assert sorted == sorted[..k] + sorted[k..];
      assert models[..n + 1] == models[..n] + [m];
      sorted := sorted[..k] + [m] + sorted[k..];
    }
    assert models[..|models|] == models;
  }

  // ----- the public catalog -----

  datatype CatalogModel = CatalogModel(id: string, contextWindow: int, maxInputTokens: int)

  // By catalog provider, then by model key.
  type Catalog = map<string, map<string, CatalogModel>>

  predicate InCatalog(catalog: Catalog, catalogId: string, accepts: (string, CatalogModel) -> bool, x: Model) {
    && catalogId in catalog && x.id in catalog[catalogId]
    && var source := catalog[catalogId][x.id];
       && source.id == x.id && accepts(catalogId, source)
       && x == Model(x.id, x.provider, source.contextWindow, source.maxInputTokens)
  }

  // The translated models of one catalog provider; accepts stands for the checks on a source model.
  method CatalogModels(catalog: Catalog, catalogId: string, providerId: string, accepts: (string, CatalogModel) -> bool)
    returns (models: seq<Model>)
    ensures Sorted(models)
    ensures forall x :: x in models <==> x.provider == providerId && InCatalog(catalog, catalogId, accepts, x)
  {
    models := [];
    if catalogId !in catalog {
      return;
    }
    var keys := catalog[catalogId].Keys;
    while keys != {}
      invariant keys <= catalog[catalogId].Keys
      invariant forall x :: x in models <==> x.provider == providerId && InCatalog(catalog, catalogId, accepts, x) && x.id !in keys
      invariant NamedOnce(models)
    {
      var key :| key in keys;
      keys := keys - {key};
      var source := catalog[catalogId][key];
      if source.id == key && accepts(catalogId, source) {
        assert forall x | x in models :: x.id != key;
        models := models + [Model(key, providerId, source.contextWindow, source.maxInputTokens)];
      }
    }
    models := Sort(models);
  }

  // What the catalog offers to a registry: models for each provider that has a catalog id.
  predicate Offers(entries: Entries, catalog: Catalog, accepts: (string, CatalogModel) -> bool, x: Model) {
    && x.provider in entries && entries[x.provider].catalogId != ""
    && InCatalog(catalog, entries[x.provider].catalogId, accepts, x)
  }

  ghost predicate OffersNamesake(entries: Entries, catalog: Catalog, accepts: (string, CatalogModel) -> bool, x: Model) {
    exists y :: Offers(entries, catalog, accepts, y) && y.provider == x.provider && y.id == x.id
  }

  ghost predicate UpdatesOffer(
    entries: Entries, catalog: Catalog, accepts: (string, CatalogModel) -> bool, updates: map<string, seq<Model>>)
  {
    && WellNamed(updates)
    && forall x: Model :: x.provider in updates && x in updates[x.provider] <==> Offers(entries, catalog, accepts, x)
  }

  // The overlay lists exactly the models the catalog offers and the old ones it does not mention.
  lemma OverlayOffers(
    entries: Entries, catalog: Catalog, accepts: (string, CatalogModel) -> bool, updates: map<string, seq<Model>>, x: Model)
    requires WellFiled(entries) && UpdatesOffer(entries, catalog, accepts, updates)
    ensures Lists(Overlaid(entries, updates), x) <==>
      Offers(entries, catalog, accepts, x) || (Lists(entries, x) && !OffersNamesake(entries, catalog, accepts, x))
  {
    var p := x.provider;
    if p in entries && p in updates {
      ByIdFiles(updates[p], x.id);
      if x.id in ById(updates[p]) {
        var y := ById(updates[p])[x.id];
        assert Offers(entries, catalog, accepts, y);
      }
    }
  }

  // The same providers, and no listed name is lost.
  ghost predicate Outlasts(before: Entries, after: Entries) {
    && after.Keys == before.Keys
    && forall p | p in before ::
         after[p].catalogId == before[p].catalogId && before[p].models.Keys <= after[p].models.Keys
  }

  // ----- the registry -----

  predicate Distinct(configs: seq<Option<Entry>>) {
    forall i, j | 0 <= i < j < |configs| && configs[i].Some? && configs[j].Some? :: configs[i].value.id != configs[j].value.id
  }

  predicate AllBuilt(configs: seq<Option<Entry>>) {
    forall i | 0 <= i < |configs| :: configs[i].Some?
  }

  // Composes what the provider configurations build; None is one that fails to build.
  method NewProviders(configs: seq<Option<Entry>>) returns (registry: Option<Registry>)
    requires forall c | c in configs && c.Some? :: WellFiled(map[c.value.id := c.value])
    ensures registry.Some? <==> configs != [] && AllBuilt(configs) && Distinct(configs)
    ensures registry.Some? ==> registry.value.Valid() && fresh(registry.value)
    ensures registry.Some? ==>
      forall p, e :: p in registry.value.entries && registry.value.entries[p] == e <==> Some(e) in configs && e.id == p
  {
    if configs == [] {
      return None;
    }
    var entries: Entries := map[];
    for i := 0 to |configs|
      invariant AllBuilt(configs[..i]) && Distinct(configs[..i]) && WellFiled(entries)
      invariant forall p, e :: p in entries && entries[p] == e <==> Some(e) in configs[..i] && e.id == p
    {
      assert configs[i] in configs;
      assert configs[..i + 1] == configs[..i] + [configs[i]];
      if configs[i].None? {
        return None;
      }
      var entry := configs[i].value;
      assert WellFiled(map[entry.id := entry]) && map[entry.id := entry][entry.id] == entry;
      if entry.id in entries {
        var j :| 0 <= j < i && configs[..i][j] == Some(entries[entry.id]);
        assert configs[j].value.id == configs[i].value.id;
        return None;
      }
      assert forall j | 0 <= j < i :: configs[..i][j] == configs[j] && Some(configs[j].value) in configs[..i];
      entries := entries[entry.id := entry];
    }
    assert configs[..|configs|] == configs;
    var built := new Registry(entries);
    return Some(built);
  }

  class Registry {
    var entries: Entries
    var index: map<string, string>
    var ambiguous: set<string>

    ghost predicate Valid()
      reads this
    {
      WellFiled(entries) && Indexed(entries, index, ambiguous)
    }

    constructor (built: Entries)
      requires WellFiled(built)
      ensures Valid() && entries == built
    {
      entries, index, ambiguous := built, map[], {};
      new;
      RebuildIndex();
    }

    // Maps are visited in any order.
    method RebuildIndex()
      requires WellFiled(entries)
      modifies this
      ensures Valid() && entries == old(entries)
    {
      hide WellFiled, Indexed, IndexedSoFar;
      index, ambiguous := map[], {};
      ghost var e := entries;
      var providers := entries.Keys;
      ghost var finished := {};
      NoOwners(e, "");
      while providers != {}
        invariant entries == e && finished + providers == e.Keys && finished !! providers
        invariant IndexedSoFar(e, finished, "", {}, index, ambiguous)
        decreases |providers|
      {
        var p :| p in providers;
        IndexProvider(p, finished);
        ProviderEnds(e, finished, p, index, ambiguous);
        providers, finished := providers - {p}, finished + {p};
      }
      AllOwners(e, index, ambiguous);
    }

    method IndexProvider(p: string, ghost finished: set<string>)
      requires p in entries && p !in finished && IndexedSoFar(entries, finished, "", {}, index, ambiguous)
      modifies this
      ensures entries == old(entries) && IndexedSoFar(entries, finished, p, entries[p].models.Keys, index, ambiguous)
    {
      hide IndexedSoFar;
      ghost var e := entries;
      var ids := entries[p].models.Keys;
      ghost var done := {};
      ProviderStarts(e, finished, p, index, ambiguous);
      while ids != {}
        invariant entries == e && done + ids == e[p].models.Keys && done !! ids
        invariant IndexedSoFar(e, finished, p, done, index, ambiguous)
        decreases |ids|
      {
        var m :| m in ids;
        IndexNext(e, finished, p, done, m, index, ambiguous);
        ids, done := ids - {m}, done + {m};
        if m in index && index[m] != p {
          index := index - {m};
          ambiguous := ambiguous + {m};
          continue;
        }
        if m !in ambiguous {
          index := index[m := p];
        }
      }
    }

    method Find(id: string) returns (found: Option<Model>)
      requires Valid()
      ensures forall x :: found == Some(x) <==> Resolves(entries, id, x)
    {
      var cut := Cut(id);
      if cut.Some? {
        var (provider, model) := cut.value;
        if provider in entries && model in entries[provider].models {
          FullName(entries, id);
          return Some(entries[provider].models[model]);
        }
      }
      BareId(entries, index, ambiguous, id);
      if id in ambiguous {
        return None;
      }
      if id in index {
        return Some(entries[index[id]].models[id]);
      }
      return None;
    }

    // Every model once, by provider and id.
    method Models() returns (out: seq<Model>)
      requires Valid()
      ensures Sorted(out) && forall x :: x in out <==> Lists(entries, x)
    {
      out := [];
      var providers := entries.Keys;
      while providers != {}
        invariant providers <= entries.Keys
        invariant forall x :: x in out <==> Lists(entries, x) && x.provider !in providers
        invariant NamedOnce(out)
      {
        var p :| p in providers;
        var ids := entries[p].models.Keys;
        while ids != {}
          invariant ids <= entries[p].models.Keys
          invariant forall x :: x in out <==> Lists(entries, x) && (x.provider !in providers || (x.provider == p && x.id !in ids))
          invariant NamedOnce(out)
        {
          var m :| m in ids;
          out := out + [entries[p].models[m]];
          ids := ids - {m};
        }
        providers := providers - {p};
      }
      out := Sort(out);
    }

    method Overlay(updates: map<string, seq<Model>>)
      requires Valid() && WellNamed(updates)
      modifies this
      ensures Valid() && entries == Overlaid(old(entries), updates)
    {
      ghost var was := entries;
      var providers := updates.Keys;
      while providers != {}
        invariant providers <= updates.Keys && entries.Keys == was.Keys
        invariant forall p | p in was ::
          entries[p] == if p in updates && p !in providers then Merged(was[p], updates[p]) else was[p]
      {
        var p :| p in providers;
        providers := providers - {p};
        if p !in entries || updates[p] == [] {
          assert p in was ==> Merged(was[p], []) == was[p];
          continue;
        }
        var models := Merge(entries[p].models, updates[p]);
        entries := entries[p := entries[p].(models := models)];
      }
      assert entries == Overlaid(was, updates);
      OverlayKeeps(was, updates);
      RebuildIndex();
    }

    // Other refreshes, each with what its own catalog offers.
    method OtherRefreshes()
      requires Valid()
      modifies this
      ensures Valid() && Outlasts(old(entries), entries)
    {
      var n :| 0 <= n;
      for i := 0 to n
        invariant Valid() && Outlasts(old(entries), entries)
      {
        var updates: map<string, seq<Model>> := *;
        if WellNamed(updates) {
          OverlayKeeps(entries, updates);
          Overlay(updates);
        }
      }
    }

    // The catalog may fail to load. It is translated for a snapshot of the providers; before is what
    // other refreshes have made of the registry when the result is overlaid.
    method RefreshModels(catalog: Option<Catalog>, accepts: (string, CatalogModel) -> bool) returns (ok: bool, ghost before: Entries)
      requires Valid()
      modifies this
      ensures Valid() && ok == catalog.Some? && Outlasts(old(entries), before) && Outlasts(old(entries), entries)
      ensures !ok ==> entries == old(entries)
      ensures ok ==> forall x :: Lists(entries, x) <==>
        Offers(before, catalog.value, accepts, x) || (Lists(before, x) && !OffersNamesake(before, catalog.value, accepts, x))
    {
      before := entries;
      if catalog.None? {
        return false, before;
      }
      var updates := CollectUpdates(catalog.value, accepts);
      OtherRefreshes();
      before := entries;
      OverlayKeeps(before, updates);
      Overlay(updates);
      forall x {
        OverlayOffers(before, catalog.value, accepts, updates, x);
      }
      return true, before;
    }

    // The updates for the providers that have a catalog id, from one look at the registry.
    method CollectUpdates(catalog: Catalog, accepts: (string, CatalogModel) -> bool) returns (updates: map<string, seq<Model>>)
      ensures forall now | Outlasts(entries, now) :: UpdatesOffer(now, catalog, accepts, updates)
    {
      updates := map[];
      var providers := entries.Keys;
      while providers != {}
        invariant providers <= entries.Keys
        invariant updates.Keys <= entries.Keys && updates.Keys !! providers
        invariant WellNamed(updates)
        invariant forall x: Model ::
          x.provider in updates && x in updates[x.provider] <==> x.provider !in providers && Offers(entries, catalog, accepts, x)
      {
        var p :| p in providers;
        providers := providers - {p};
        if entries[p].catalogId != "" {
          var models := CatalogModels(catalog, entries[p].catalogId, p, accepts);
          updates := updates[p := models];
        }
      }
    }
  }
}
