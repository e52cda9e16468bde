/** submanager/xui_scan/xui_db.py: the `xui_links` and `xui_sites` tables. */
module XuiDb {
  import opened Wrappers
  import opened Strings
  import opened PyValue
  import opened Codecs
  import opened Store

  const LinkTable: string := "xui_links"
  const SiteTable: string := "xui_sites"

  /** `XuiLinkDb.put_xui_link(key, item)`: a list is stored as `{'link': item[0]}`;
      `None` when the list is empty (`item[0]` raises). */
  function PutXuiLink(t: Table, key: string, item: Value): (r: Option<Table>)
    ensures item.List? && |item.items| > 0 ==> r == Some(Put(t, key, Dict(map["link" := item.items[0]])))
    ensures !item.List? ==> r == Some(Put(t, key, item))
    ensures r.None? <==> item == List([])
  {
    if item.List? then
      if |item.items| == 0 then None else Some(Put(t, key, Dict(map["link" := item.items[0]])))
    else Some(Put(t, key, item))
  }

  /** `item.get('link', '').split()` for one stored record; `None` when the
      record is not an object or its link is not a string. */
  function LinksOf(item: Value): (r: Option<seq<string>>)
    ensures item.Dict? && "link" !in item.fields ==> r == Some([])
    ensures r.Some? ==> forall k :: 0 <= k < |r.value| ==> IsWord(r.value[k])
  {
    if !item.Dict? then None
    else match GetOr(item.fields, "link", Str(""))
      case Str(s) => SplitWhitespaceWords(s); Some(SplitWhitespace(s))
      case _ => None
  }

  /** `XuiLinkDb.get_all_links()` over the records in enumeration order `keys`. */
  function GetAllLinks(lib: Lib, t: Table, keys: seq<string>): (r: Option<seq<string>>)
    requires forall i :: 0 <= i < |keys| ==> keys[i] in t
    ensures r.Some? ==> forall k :: 0 <= k < |r.value| ==> IsWord(r.value[k])
    decreases |keys|
  {
    if |keys| == 0 then Some([])
    else
      match (Loaded(lib, t[keys[|keys| - 1]]), GetAllLinks(lib, t, keys[..|keys| - 1]))
      case (Some(item), Some(prev)) =>
        (match LinksOf(item)
         case Some(links) => Some(prev + links)
         case None => None)
      case _ => None
  }

  /** The links are the concatenation of every record's links, in order:
      appending a record appends exactly its links. */
  lemma GetAllLinksAppend(lib: Lib, t: Table, keys: seq<string>, k: string)
    requires forall i :: 0 <= i < |keys| ==> keys[i] in t
    requires k in t && GetAllLinks(lib, t, keys + [k]).Some?
    ensures GetAllLinks(lib, t, keys).Some?
    ensures Loaded(lib, t[k]).Some? && LinksOf(Loaded(lib, t[k]).value).Some?
    ensures GetAllLinks(lib, t, keys + [k]).value == GetAllLinks(lib, t, keys).value + LinksOf(Loaded(lib, t[k]).value).value
  {
    assert (keys + [k])[..|keys|] == keys;
  }

  /** A record without a `link` contributes nothing. */
  lemma MissingLinkContributesNothing(lib: Lib, t: Table, keys: seq<string>, k: string)
    requires forall i :: 0 <= i < |keys| ==> keys[i] in t
    requires k in t && t[k].Dict? && "link" !in t[k].fields
    ensures GetAllLinks(lib, t, keys + [k]) == GetAllLinks(lib, t, keys)
  {
    assert (keys + [k])[..|keys|] == keys;
    var prev := GetAllLinks(lib, t, keys);
    if prev.Some? {
      assert prev.value + [] == prev.value;
    }
  }

  /** The stored site records that `json.loads` turns into objects; the
      others make `item['url'] = k` raise. */
  predicate AllSitesObjects(lib: Lib, t: Table) {
    forall k :: k in t ==> Loaded(lib, t[k]).Some? && Loaded(lib, t[k]).value.Dict?
  }

  /** `item.get('status', '') != 'failure'`. */
  predicate NotFailed(site: Record) {
    GetOr(site, "status", Str("")) != Str("failure")
  }

  /** `XuiSiteDb.get_all_success_sites()`; `None` when it raises. */
  function GetAllSuccessSites(lib: Lib, t: Table): (r: Option<map<string, Record>>)
    ensures r.Some? <==> AllSitesObjects(lib, t)
    ensures r.Some? ==> forall k :: k in r.value <==> k in t && NotFailed(Loaded(lib, t[k]).value.fields)
    ensures r.Some? ==> forall k :: k in r.value ==> "url" in r.value[k] && r.value[k]["url"] == Str(k)
    ensures (r.Some? ==> forall k :: k in r.value ==>
      r.value[k] == Loaded(lib, t[k]).value.fields["url" := Str(k)])
  {
    if !AllSitesObjects(lib, t) then None
    else Some(map k | k in t && NotFailed(Loaded(lib, t[k]).value.fields) :: Loaded(lib, t[k]).value.fields["url" := Str(k)])
  }

  /** A site without a `status` counts as a success. */
  lemma MissingStatusIsSuccess(lib: Lib, t: Table, k: string)
    requires AllSitesObjects(lib, t) && k in t && "status" !in Loaded(lib, t[k]).value.fields
    ensures k in GetAllSuccessSites(lib, t).value
  {
  }
}
