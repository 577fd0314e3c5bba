/**
 * Flattening a decoded SMAPI presentation map into the table that search requests use:
 * human-facing search-category id (or custom string id) to the service's `mappedId`
 * (internal/sonos/smapi_pmap.go).
 */
module PresentationMap {
  import opened Wrappers
  import opened Text

  /** A `<Category id=… mappedId=… mappedID=…>` element; `altId` is the differently-cased attribute. */
  datatype Category = Category(id: string, mappedId: string, altId: string)

  /** A `<CustomCategory stringId=… mappedId=…>` element. */
  datatype CustomCategory = CustomCategory(stringId: string, mappedId: string)

  datatype SearchCategories = SearchCategories(categories: seq<Category>, customCategories: seq<CustomCategory>)

  /** The decoded document: `<SearchCategories>` may be absent. */
  datatype Envelope = Envelope(searchCategories: Option<SearchCategories>)

  /** What the XML decoder made of the raw bytes. */
  datatype Decoded = Malformed(reason: string) | Decoded(envelope: Envelope)

  datatype Error = DecodeError(reason: string)

  /** One candidate table row, already trimmed. */
  datatype Entry = Entry(id: string, mapped: string)

  /** A row is written only when both its id and its mapped value are non-empty. */
  predicate Usable(e: Entry)
  {
    e.id != "" && e.mapped != ""
  }

  /** The row a category contributes: trimmed id, trimmed `mappedId`, else trimmed `mappedID`. */
  function CategoryEntry(c: Category): Entry
  {
    var mapped := TrimSpace(c.mappedId);
    Entry(TrimSpace(c.id), if mapped == "" then TrimSpace(c.altId) else mapped)
  }

  /**
   * The `mappedID` attribute is consulted only when the trimmed `mappedId` is empty, and a
   * category yields a row exactly when its trimmed id and one of the two values are non-empty.
   */
  lemma CategoryFallback(c: Category)
    ensures TrimSpace(c.mappedId) != "" ==> CategoryEntry(c).mapped == TrimSpace(c.mappedId)
    ensures TrimSpace(c.mappedId) == "" ==> CategoryEntry(c).mapped == TrimSpace(c.altId)
    ensures Usable(CategoryEntry(c)) <==> TrimSpace(c.id) != "" && (TrimSpace(c.mappedId) != "" || TrimSpace(c.altId) != "")
  {
  }

  /** The row a custom category contributes: trimmed string id and trimmed `mappedId`. */
  function CustomEntry(c: CustomCategory): Entry
  {
    Entry(TrimSpace(c.stringId), TrimSpace(c.mappedId))
  }

  function CategoryEntries(cs: seq<Category>): (es: seq<Entry>)
    ensures |es| == |cs| && forall k :: 0 <= k < |cs| ==> es[k] == CategoryEntry(cs[k])
  {
    if cs == [] then [] else CategoryEntries(cs[..|cs| - 1]) + [CategoryEntry(cs[|cs| - 1])]
  }

  function CustomEntries(cs: seq<CustomCategory>): (es: seq<Entry>)
    ensures |es| == |cs| && forall k :: 0 <= k < |cs| ==> es[k] == CustomEntry(cs[k])
  {
    if cs == [] then [] else CustomEntries(cs[..|cs| - 1]) + [CustomEntry(cs[|cs| - 1])]
  }

  /** Every candidate row in the order the source writes them: categories, then custom categories. */
  function Entries(sc: SearchCategories): seq<Entry>
  {
    CategoryEntries(sc.categories) + CustomEntries(sc.customCategories)
  }

  /** Row i of the candidate rows comes from category i, or from custom category i - n after the n categories. */
  lemma EntryAt(sc: SearchCategories, i: nat)
    requires i < |sc.categories| + |sc.customCategories|
    ensures |Entries(sc)| == |sc.categories| + |sc.customCategories|
    ensures Entries(sc)[i] ==
      if i < |sc.categories| then CategoryEntry(sc.categories[i]) else CustomEntry(sc.customCategories[i - |sc.categories|])
  {
  }

  /** The table obtained by writing the usable rows of `es` one after the other. */
  function Flatten(es: seq<Entry>): map<string, string>
  {
    if es == [] then map[]
    else
      var e := es[|es| - 1];
      var m := Flatten(es[..|es| - 1]);
      if Usable(e) then m[e.id := e.mapped] else m
  }

  lemma FlattenSnoc(es: seq<Entry>, e: Entry)
    ensures Flatten(es + [e]) == if Usable(e) then Flatten(es)[e.id := e.mapped] else Flatten(es)
  {
    assert (es + [e])[..|es|] == es;
  }

  lemma CategoryStep(cats: seq<Category>, i: nat)
    requires i < |cats|
    ensures var e := CategoryEntry(cats[i]);
      Flatten(CategoryEntries(cats[..i + 1])) ==
        if Usable(e) then Flatten(CategoryEntries(cats[..i]))[e.id := e.mapped] else Flatten(CategoryEntries(cats[..i]))
  {
    assert cats[..i + 1][..i] == cats[..i];
    FlattenSnoc(CategoryEntries(cats[..i]), CategoryEntry(cats[i]));
  }

  lemma CustomStep(prefix: seq<Entry>, customs: seq<CustomCategory>, j: nat)
    requires j < |customs|
    ensures var e := CustomEntry(customs[j]);
      Flatten(prefix + CustomEntries(customs[..j + 1])) ==
        if Usable(e) then Flatten(prefix + CustomEntries(customs[..j]))[e.id := e.mapped] else Flatten(prefix + CustomEntries(customs[..j]))
  {
    assert customs[..j + 1][..j] == customs[..j];
    assert prefix + CustomEntries(customs[..j + 1]) == prefix + CustomEntries(customs[..j]) + [CustomEntry(customs[j])];
    FlattenSnoc(prefix + CustomEntries(customs[..j]), CustomEntry(customs[j]));
  }

  /** A key is in the table exactly when some usable row has it as id. */
  lemma {:induction false} FlattenKeys(es: seq<Entry>, k: string)
    ensures k in Flatten(es) <==> exists i :: 0 <= i < |es| && Usable(es[i]) && es[i].id == k
  {
    if es != [] {
      var init := es[..|es| - 1];
      FlattenKeys(init, k);
      if exists i :: 0 <= i < |init| && Usable(init[i]) && init[i].id == k {
        var i :| 0 <= i < |init| && Usable(init[i]) && init[i].id == k;
        assert es[i] == init[i];
      }
      if exists i :: 0 <= i < |es| && Usable(es[i]) && es[i].id == k {
        var i :| 0 <= i < |es| && Usable(es[i]) && es[i].id == k;
        if i < |init| { assert init[i] == es[i]; }
      }
    }
  }

  /** The value of a key is the value of the last usable row with that id: later writes win. */
  lemma {:induction false} FlattenLastWins(es: seq<Entry>, i: nat)
    requires i < |es| && Usable(es[i])
    requires forall j :: i < j < |es| && Usable(es[j]) ==> es[j].id != es[i].id
    ensures es[i].id in Flatten(es) && Flatten(es)[es[i].id] == es[i].mapped
  {
    var init := es[..|es| - 1];
    if i < |es| - 1 {
      forall j | i < j < |init| && Usable(init[j]) ensures init[j].id != init[i].id {
        assert init[j] == es[j];
      }
      FlattenLastWins(init, i);
    }
  }

  /** Every (key, value) of the table is a usable row of the input: nothing else appears. */
  lemma {:induction false} FlattenOrigin(es: seq<Entry>, k: string)
    requires k in Flatten(es)
    ensures exists i :: 0 <= i < |es| && Usable(es[i]) && es[i] == Entry(k, Flatten(es)[k])
  {
    var init := es[..|es| - 1];
    var e := es[|es| - 1];
    if Usable(e) && e.id == k {
      assert es[|es| - 1] == Entry(k, Flatten(es)[k]);
    } else {
      FlattenOrigin(init, k);
      var i :| 0 <= i < |init| && Usable(init[i]) && init[i] == Entry(k, Flatten(init)[k]);
      assert es[i] == init[i];
    }
  }

  /**
   * parsePresentationMapXML: a decode failure is returned as an error; a document without
   * `<SearchCategories>` gives the empty table; otherwise every usable category row and then
   * every usable custom-category row is written into the table in order.
   */
  method ParsePresentationMap(d: Decoded) returns (r: Result<map<string, string>, Error>)
    ensures d.Malformed? ==> r == Failure(DecodeError(d.reason))
    ensures d.Decoded? && d.envelope.searchCategories.None? ==> r == Success(map[])
    ensures d.Decoded? && d.envelope.searchCategories.Some? ==>
      r == Success(Flatten(Entries(d.envelope.searchCategories.value)))
  {
    if d.Malformed? {
      return Failure(DecodeError(d.reason));
    }
    var out: map<string, string> := map[];
    if d.envelope.searchCategories.None? {
      return Success(out);
    }
    var sc := d.envelope.searchCategories.value;
    var cats := sc.categories;
    for i := 0 to |cats|
      invariant out == Flatten(CategoryEntries(cats[..i]))
    {
      var id := TrimSpace(cats[i].id);
      var mapped := TrimSpace(cats[i].mappedId);
      if mapped == "" {
        mapped := TrimSpace(cats[i].altId);
      }
      if id != "" && mapped != "" {
        out := out[id := mapped];
      }
      CategoryStep(cats, i);
    }
    assert cats[..|cats|] == cats;
    var customs := sc.customCategories;
    assert CategoryEntries(cats) + CustomEntries(customs[..0]) == CategoryEntries(cats);
    for j := 0 to |customs|
      invariant out == Flatten(CategoryEntries(cats) + CustomEntries(customs[..j]))
    {
      var id := TrimSpace(customs[j].stringId);
      var mapped := TrimSpace(customs[j].mappedId);
      if id != "" && mapped != "" {
        out := out[id := mapped];
      }
      CustomStep(CategoryEntries(cats), customs, j);
    }
    assert customs[..|customs|] == customs;
    return Success(out);
  }

  /**
   * Every key of the parsed table is the trimmed id of a category or custom category, and its
   * value is that element's trimmed mapped value (with the `mappedID` fallback for categories).
   */
  lemma TableComesFromInput(sc: SearchCategories, k: string)
    requires k in Flatten(Entries(sc))
    ensures k != "" && Flatten(Entries(sc))[k] != ""
    ensures k == TrimSpace(k) && Flatten(Entries(sc))[k] == TrimSpace(Flatten(Entries(sc))[k])
    ensures || (exists c :: c in sc.categories && CategoryEntry(c) == Entry(k, Flatten(Entries(sc))[k]))
            || (exists c :: c in sc.customCategories && CustomEntry(c) == Entry(k, Flatten(Entries(sc))[k]))
  {
    var es := Entries(sc);
    var v := Flatten(es)[k];
    var n := |sc.categories|;
    FlattenOrigin(es, k);
    var i :| 0 <= i < |es| && Usable(es[i]) && es[i] == Entry(k, v);
    EntryAt(sc, i);
    if i < n {
      var c := sc.categories[i];
      assert c in sc.categories && CategoryEntry(c) == Entry(k, v);
      EntriesAreTrimmed(CategoryEntry(c), if TrimSpace(c.mappedId) == "" then c.altId else c.mappedId, c.id);
    } else {
      var c := sc.customCategories[i - n];
      assert c in sc.customCategories && CustomEntry(c) == Entry(k, v);
      EntriesAreTrimmed(CustomEntry(c), c.mappedId, c.stringId);
    }
  }

  /** A row made of trimmed strings is left alone by trimming. */
  lemma EntriesAreTrimmed(e: Entry, rawMapped: string, rawId: string)
    requires e.id == TrimSpace(rawId) && e.mapped == TrimSpace(rawMapped)
    ensures e.id == TrimSpace(e.id) && e.mapped == TrimSpace(e.mapped)
  {
    TrimSpaceIdempotent(rawId);
    TrimSpaceIdempotent(rawMapped);
  }

  /** A trimmed id that no category or custom category usably provides is not a key. */
  lemma SkippedIdsAreAbsent(sc: SearchCategories, k: string)
    requires forall c :: c in sc.categories && TrimSpace(c.id) == k ==> !Usable(CategoryEntry(c))
    requires forall c :: c in sc.customCategories && TrimSpace(c.stringId) == k ==> !Usable(CustomEntry(c))
    ensures k !in Flatten(Entries(sc))
  {
    var es := Entries(sc);
    var n := |sc.categories|;
    forall i | 0 <= i < |es| && Usable(es[i]) ensures es[i].id != k {
      EntryAt(sc, i);
      if i < n {
        assert sc.categories[i] in sc.categories;
      } else {
        assert sc.customCategories[i - n] in sc.customCategories;
      }
    }
    FlattenKeys(es, k);
  }

  /**
   * Custom categories are written after categories: a usable custom category that no later
   * custom category overrides determines its key's value, whatever the categories say.
   */
  lemma CustomCategoryWins(sc: SearchCategories, j: nat)
    requires j < |sc.customCategories| && Usable(CustomEntry(sc.customCategories[j]))
    requires forall j' :: j < j' < |sc.customCategories| && Usable(CustomEntry(sc.customCategories[j'])) ==>
      CustomEntry(sc.customCategories[j']).id != CustomEntry(sc.customCategories[j]).id
    ensures var e := CustomEntry(sc.customCategories[j]);
      e.id in Flatten(Entries(sc)) && Flatten(Entries(sc))[e.id] == e.mapped
  {
    var es := Entries(sc);
    var n := |sc.categories|;
    EntryAt(sc, n + j);
    forall i | n + j < i < |es| && Usable(es[i]) ensures es[i].id != es[n + j].id {
      EntryAt(sc, i);
    }
    FlattenLastWins(es, n + j);
  }

  /** The search categories of the package's own test document. */
  function TestCategories(): SearchCategories
  {
    SearchCategories(
      [Category("tracks", "search:track", ""), Category("albums", "search:album", "")],
      [CustomCategory("Blogs", "SBLG")])
  }

  /** A category whose id and `mappedId` are already trimmed and non-empty contributes them as they are. */
  lemma TrimmedCategoryEntry(c: Category)
    requires IsTrimmed(c.id) && IsTrimmed(c.mappedId) && c.mappedId != ""
    ensures CategoryEntry(c) == Entry(c.id, c.mappedId)
  {
    TrimmedIsFixed(c.id);
    TrimmedIsFixed(c.mappedId);
  }

  /** The test document's three candidate rows, all usable and already trimmed. */
  lemma TestEntries()
    ensures Entries(TestCategories()) ==
      [Entry("tracks", "search:track"), Entry("albums", "search:album"), Entry("Blogs", "SBLG")]
  {
    var sc := TestCategories();
    TrimmedCategoryEntry(sc.categories[0]);
    TrimmedCategoryEntry(sc.categories[1]);
    TrimmedIsFixed("Blogs");
    TrimmedIsFixed("SBLG");
    var es := Entries(sc);
    assert es[2] == Entry("Blogs", "SBLG");
  }

  /** The document of the package's own test: two categories and one custom category. */
  lemma TestDocument()
    ensures Flatten(Entries(TestCategories())) == map["tracks" := "search:track", "albums" := "search:album", "Blogs" := "SBLG"]
  {
    TestEntries();
    var e1, e2, e3 := Entry("tracks", "search:track"), Entry("albums", "search:album"), Entry("Blogs", "SBLG");
    FlattenSnoc([], e1);
    assert [e1] == [] + [e1];
    FlattenSnoc([e1], e2);
    FlattenSnoc([e1, e2], e3);
    assert [e1, e2, e3] == [e1, e2] + [e3];
  }
}
