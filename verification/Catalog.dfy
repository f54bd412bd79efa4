/** The published page ids of a catalog, computed by two scripts, and the collector's cache of them. */
module Catalog {
  import opened Shapes
  import opened Json
  import opened OriginReader

  predicate IsText(v: Option<Value>) {
    v.Some? && v.value.Str? && v.value.text != ""
  }

  predicate PageOk(page: Value) {
    page.Obj? && IsText(Get(page, "preview")) && IsText(Get(page, "print"))
  }

  /** The entry's pages, or the entry itself as its one page. */
  function Pages(entry: Value): seq<Value> {
    var p := Get(entry, "pages");
    if p.Some? && p.value.Arr? && p.value.items != [] then p.value.items else [entry]
  }

  predicate Shown(entry: Value) {
    Get(entry, "hidden") != Some(Bool(true)) && Get(entry, "visible") != Some(Bool(false))
  }

  predicate Published(entry: Value) {
    HasId(entry) && IsPageId(IdOf(entry)) && Shown(entry) && forall p :: p in Pages(entry) ==> PageOk(p)
  }

  predicate HasId(entry: Value) {
    Get(entry, "id").Some? && Get(entry, "id").value.Str?
  }

  function IdOf(entry: Value): string
    requires HasId(entry)
  {
    Get(entry, "id").value.text
  }

  /** A list of entries with different ids. */
  predicate CatalogOk(catalog: Value) {
    catalog.Arr?
    && (forall e :: e in catalog.items ==> HasId(e))
    && forall i, j :: 0 <= i < j < |catalog.items| ==> IdOf(catalog.items[i]) != IdOf(catalog.items[j])
  }

  function PublishedIds(entries: seq<Value>): set<string> {
    set e | e in entries && Published(e) :: IdOf(e)
  }

  function AllIds(entries: seq<Value>): set<string>
    requires forall e :: e in entries ==> HasId(e)
  {
    set e | e in entries :: IdOf(e)
  }

  lemma OneMoreEntry(entries: seq<Value>, n: nat)
    requires n < |entries| && forall e :: e in entries ==> HasId(e)
    ensures AllIds(entries[..n + 1]) == AllIds(entries[..n]) + {IdOf(entries[n])}
    ensures PublishedIds(entries[..n + 1])
         == PublishedIds(entries[..n]) + if Published(entries[n]) then {IdOf(entries[n])} else {}
    ensures IdOf(entries[n]) in AllIds(entries[..n]) <==> exists i :: 0 <= i < n && IdOf(entries[i]) == IdOf(entries[n])
  {
    hide HasId, IdOf, Published;
    assert entries[..n + 1] == entries[..n] + [entries[n]];
    assert forall e :: e in entries[..n + 1] <==> e in entries[..n] || e == entries[n];
    assert forall i :: 0 <= i < n ==> entries[i] in entries[..n];
  }

  /** A page that can be shown and printed. */
  ghost predicate Complete(page: Value) {
    page.Obj?
    && (exists preview :: preview != "" && "preview" in page.members && page.members["preview"] == Str(preview))
    && (exists printed :: printed != "" && "print" in page.members && page.members["print"] == Str(printed))
  }

  /** An entry of that id, seven digits, which is not taken back and whose pages are complete: those it
      lists if it lists any, itself otherwise. */
  ghost predicate Offers(entry: Value, id: string) {
    entry.Obj? && "id" in entry.members && entry.members["id"] == Str(id)
    && |id| == 7 && (forall i :: 0 <= i < 7 ==> '0' <= id[i] <= '9')
    && !("hidden" in entry.members && entry.members["hidden"] == Bool(true))
    && !("visible" in entry.members && entry.members["visible"] == Bool(false))
    && if "pages" in entry.members && entry.members["pages"].Arr? && entry.members["pages"].items != []
       then forall p :: p in entry.members["pages"].items ==> Complete(p)
       else Complete(entry)
  }

  lemma CompleteIs(page: Value)
    ensures PageOk(page) <==> Complete(page)
  {
    if PageOk(page) {
      assert page.members["preview"] == Str(page.members["preview"].text);
      assert page.members["print"] == Str(page.members["print"].text);
    }
  }

  lemma OffersIs(entry: Value, id: string)
    ensures Offers(entry, id) <==> Published(entry) && IdOf(entry) == id
  {
    hide PageOk, Complete;
    forall p ensures PageOk(p) <==> Complete(p) {
      CompleteIs(p);
    }
  }

  /** An id is published exactly when an entry offers it. */
  lemma PublishedMeans(entries: seq<Value>, id: string)
    ensures id in PublishedIds(entries) <==> exists e :: e in entries && Offers(e, id)
  {
    hide Offers, IsPageId, Shown, Pages, PageOk;
    forall e ensures Offers(e, id) <==> Published(e) && IdOf(e) == id {
      OffersIs(e, id);
    }
  }

  /** What has been seen and allowed of the first `n` entries, none of which is refused. */
  ghost predicate Scanned(entries: seq<Value>, n: nat, seen: set<string>, allowed: set<string>) {
    n <= |entries| && CatalogOk(Arr(entries[..n]))
    && seen == AllIds(entries[..n]) && allowed == PublishedIds(entries[..n])
  }

  lemma ScanStarts(entries: seq<Value>)
    ensures Scanned(entries, 0, {}, {})
  {
    assert entries[..0] == [];
  }

  lemma ScanEnds(entries: seq<Value>, seen: set<string>, allowed: set<string>)
    ensures Scanned(entries, |entries|, seen, allowed) ==> CatalogOk(Arr(entries)) && allowed == PublishedIds(entries)
  {
    hide PublishedIds, AllIds, CatalogOk;
    assert entries[..|entries|] == entries;
  }

  /** One more entry is refused, and with it the catalog, or adds its id. */
  lemma ScanStep(entries: seq<Value>, n: nat, seen: set<string>, allowed: set<string>)
    requires n < |entries| && Scanned(entries, n, seen, allowed)
    ensures var e := entries[n];
            if !HasId(e) || IdOf(e) in seen then !CatalogOk(Arr(entries))
            else Scanned(entries, n + 1, seen + {IdOf(e)}, if Published(e) then allowed + {IdOf(e)} else allowed)
  {
    hide HasId, IdOf, Published;
    var e := entries[n];
    assert e in entries;
    if HasId(e) {
      var front := entries[..n + 1];
      assert front[..n] == entries[..n] && front == entries[..n] + [e];
      OneMoreEntry(front, n);
    }
  }

  /** The collector's reading of a catalog. */
  method VisibleIds(catalog: Value) returns (r: Result<set<string>>)
    ensures r.Ok? <==> CatalogOk(catalog)
    ensures r.Ok? ==> r.value == PublishedIds(catalog.items)
  {
    hide HasId, IdOf, IsPageId, Shown, PageOk, Pages, CatalogOk, PublishedIds, Scanned;
    NoListIsNoCatalog(catalog);
    if !catalog.Arr? {
      return Stop("CATALOG_SHAPE");
    }
    var seen: set<string>, allowed: set<string> := {}, {};
    ScanStarts(catalog.items);
    for n := 0 to |catalog.items|
      invariant Scanned(catalog.items, n, seen, allowed)
    {
      var entry := catalog.items[n];
      ScanStep(catalog.items, n, seen, allowed);
      if !HasId(entry) {
        return Stop("CATALOG_SHAPE");
      }
      var pageId := IdOf(entry);
      if pageId in seen {
        return Stop("CATALOG_DUPLICATE");
      }
      seen := seen + {pageId};
      if !IsPageId(pageId) || !Shown(entry) {
        continue;
      }
      if forall p :: p in Pages(entry) ==> PageOk(p) {
        allowed := allowed + {pageId};
      }
    }
    ScanEnds(catalog.items, seen, allowed);
    return Ok(allowed);
  }

  lemma NoListIsNoCatalog(catalog: Value)
    ensures CatalogOk(catalog) ==> catalog.Arr?
  {
  }

  /** The adapter's test of one entry. */
  method Renderable(entry: Value) returns (ok: bool)
    requires entry.Obj?
    ensures ok <==> Shown(entry) && forall p :: p in Pages(entry) ==> PageOk(p)
  {
    hide PageOk;
    if !Shown(entry) {
      return false;
    }
    var pages := Get(entry, "pages");
    if pages.Some? && pages.value.Arr? && pages.value.items != [] {
      for i := 0 to |pages.value.items|
        invariant forall j :: 0 <= j < i ==> PageOk(pages.value.items[j])
      {
        if !PageOk(pages.value.items[i]) {
          return false;
        }
      }
      return true;
    }
    return PageOk(entry);
  }

  /** The adapter's reading of a catalog: the same ids from the same catalogs. */
  method PublishedPageIds(catalog: Value) returns (r: Result<set<string>>)
    ensures r.Ok? <==> CatalogOk(catalog)
    ensures r.Ok? ==> r.value == PublishedIds(catalog.items)
  {
    hide IdOf, IsPageId, Shown, PageOk, Pages, CatalogOk, PublishedIds, Scanned;
    NoListIsNoCatalog(catalog);
    if !catalog.Arr? {
      return Stop("CATALOG_SHAPE");
    }
    var seen: set<string>, allowed: set<string> := {}, {};
    ScanStarts(catalog.items);
    for n := 0 to |catalog.items|
      invariant Scanned(catalog.items, n, seen, allowed)
    {
      var entry := catalog.items[n];
      ScanStep(catalog.items, n, seen, allowed);
      if !HasId(entry) {
        return Stop("CATALOG_SHAPE");
      }
      var pageId := IdOf(entry);
      if pageId in seen {
        return Stop("CATALOG_DUPLICATE_ID");
      }
      seen := seen + {pageId};
      if IsPageId(pageId) {
        var renderable := Renderable(entry);
        if renderable {
          allowed := allowed + {pageId};
        }
      }
    }
    ScanEnds(catalog.items, seen, allowed);
    return Ok(allowed);
  }

  // ---------------------------------------------------------------------------------------------
  // The cache

  const MAX_CATALOG := 8 * 1024 * 1024

  /** What identifies a version of the file. */
  datatype Stamp = Stamp(device: int, inode: int, size: int, modified: int, changed: int)

  /** One look at the open file: its status, and, should they be asked for, its bytes and its status after. */
  datatype View = View(regular: bool, info: Stamp, raw: Answer<string>, after: Answer<Stamp>)

  type Parser = string -> Option<Value>

  predicate Fits(v: View) {
    v.regular && 0 < v.info.size <= MAX_CATALOG
  }

  /** The bytes were read whole from a file that did not change meanwhile. */
  predicate Whole(v: View) {
    v.raw.Replied? && |v.raw.value| == v.info.size
    && v.after.Replied? && v.after.value.modified == v.info.modified && v.after.value.changed == v.info.changed
  }

  /** Status determines content: whole reads yield what the file of that status holds. */
  predicate Truthful(v: View, content: Stamp -> string) {
    v.raw.Replied? && |v.raw.value| == v.info.size
    && v.after.Replied? && v.after.value.modified == v.info.modified && v.after.value.changed == v.info.changed
    ==> v.raw.value == content(v.info)
  }

  function Reading(text: string, parse: Parser): Option<set<string>> {
    if parse(text).Some? && CatalogOk(parse(text).value) then Some(PublishedIds(parse(text).value.items)) else None
  }

  class Cache {
    var key: Option<Stamp>
    var ids: set<string>

    constructor ()
      ensures key == None && ids == {}
    {
      key, ids := None, {};
    }

    /** The cached ids are those of the file with the cached status. */
    predicate Valid(content: Stamp -> string, parse: Parser)
      reads this
    {
      if key.None? then ids == {} else Reading(content(key.value), parse) == Some(ids)
    }

    /** The ids of the file as it is now, or a stop: a file that is read anew and cannot be read whole or is
        no catalog leaves nothing to fall back on. */
    method Get(view: Answer<View>, parse: Parser, ghost content: Stamp -> string) returns (r: Result<set<string>>)
      requires Valid(content, parse)
      requires view.Replied? ==> Truthful(view.value, content)
      modifies this
      ensures Valid(content, parse)
      ensures r.Ok? <==>
                view.Replied? && view.value.regular && 0 < view.value.info.size <= 8388608
                && (old(key) == Some(view.value.info)
                    || (Whole(view.value) && Reading(view.value.raw.value, parse).Some?))
      ensures r.Ok? ==> Reading(content(view.value.info), parse) == Some(r.value) && key == Some(view.value.info)
      ensures r.Stop? ==>
                if view.Replied? && Fits(view.value) then key == None
                else key == old(key) && ids == old(ids)
    {
      hide CatalogOk, PublishedIds;
      if view.Raised? {
        return Stop("UNAVAILABLE");
      }
      var v := view.value;
      if !Fits(v) {
        return Stop("CATALOG_FILE");
      }
      if key != Some(v.info) {
        key := None;
        ids := {};
        if !Whole(v) {
          return Stop("CATALOG_CHANGED");
        }
        var parsed := parse(v.raw.value);
        if parsed.None? {
          return Stop("CATALOG_JSON");
        }
        var read := VisibleIds(parsed.value);
        if read.Stop? {
          return Stop(read.code);
        }
        ids, key := read.value, Some(v.info);
      }
      return Ok(ids);
    }
  }
}
