/** The web of hash spaces: links are "space/hash", stores go to the default space. */
module HashWeb {
  import opened Bytes
  import opened Prelude
  import opened Text
  import opened HashSpace

  datatype Link = Link(space: string, hash: string)

  datatype Space = Space(kit: Kit, storage: Storage)

  datatype Web = Web(spaces: map<string, Space>, default: string)

  // ------------------------------------------------------------------ links

  function Printed(link: Link): string {
    link.space + "/" + link.hash
  }

  function Unslashed(text: string): string {
    if |text| > 0 && text[0] == '/' then text[1..] else text
  }

  /** One starting slash is ignored; the first slash after it ends the space id. */
  function Parse(text: string): Result<Link> {
    var address := Unslashed(text);
    match Find(address, '/')
    case None => Err(LinkFormatError)
    case Some(i) => Ok(Link(address[..i], address[i + 1..]))
  }

  /** A link survives printing and parsing exactly when its space id is non-empty and free of
      slashes; the hash may contain any. */
  lemma LinkRoundTrip(link: Link)
    ensures Parse(Printed(link)) == Ok(link) <==> link.space != "" && '/' !in link.space
  {
    var text := Printed(link);
    if link.space != "" && '/' !in link.space {
      assert text[0] == link.space[0];
      FindFirst(link.space, '/', link.hash);
      assert text == link.space + ['/'] + link.hash;
      assert text[..|link.space|] == link.space && text[|link.space| + 1..] == link.hash;
    } else if link.space == "" {
      assert text[1..] == link.hash;
    }
  }

  /** Which texts are links: one slash in front or none, a space id without a slash, which is not
      empty unless there is a slash in front, a slash, and the hash. */
  lemma ParsesExactly(text: string, link: Link)
    ensures Parse(text) == Ok(link) <==>
            '/' !in link.space && (text == "/" + Printed(link) || (text == Printed(link) && link.space != ""))
  {
    SplitsExactly(Unslashed(text), link);
    UnslashedExactly(text, Printed(link));
    if link.space != "" { assert Printed(link)[0] == link.space[0]; }
  }

  lemma SplitsExactly(address: string, link: Link)
    ensures var i := Find(address, '/');
            i.Some? && address[..i.value] == link.space && address[i.value + 1..] == link.hash
            <==> '/' !in link.space && address == Printed(link)
  {
    var i := Find(address, '/');
    if i.Some? { assert address == address[..i.value] + "/" + address[i.value + 1..]; }
    if '/' !in link.space && address == Printed(link) {
      FindFirst(link.space, '/', link.hash);
      assert address == link.space + ['/'] + link.hash;
      assert address[..|link.space|] == link.space && address[|link.space| + 1..] == link.hash;
    }
  }

  lemma UnslashedExactly(text: string, address: string)
    ensures Unslashed(text) == address <==>
              text == "/" + address || (text == address && (address == "" || address[0] != '/'))
  {
    assert ("/" + address)[1..] == address;
    if |text| > 0 && text[0] == '/' { assert text == "/" + text[1..]; }
  }

  // ------------------------------------------------------------------ store, resolve, validate

  function WebStore(web: Web, obj: Blob): (Result<string>, Web) {
    if web.default !in web.spaces then (Err(UnsupportedHashSpace), web) else
    var space := web.spaces[web.default];
    var (result, storage) := StoreAsync(space.kit, space.storage, obj);
    var web' := web.(spaces := web.spaces[web.default := space.(storage := storage)]);
    match result
    case Err(e) => (Err(e), web')
    case Ok(hash) => (Ok(Printed(Link(web.default, hash))), web')
  }

  function WebResolve(web: Web, text: string): Result<Blob> {
    match Parse(text)
    case Err(e) => Err(e)
    case Ok(link) =>
      if link.space !in web.spaces then Err(UnsupportedHashSpace)
      else Resolve(web.spaces[link.space].kit, web.spaces[link.space].storage, link.hash)
  }

  function WebValidate(web: Web, obj: Blob, text: string): Result<bool> {
    match Parse(text)
    case Err(e) => Err(e)
    case Ok(link) =>
      if link.space !in web.spaces then Err(UnsupportedHashSpace)
      else Validate(web.spaces[link.space].kit, obj, link.hash)
  }

  /** A link is answered by the space it names, and by no other; text that is no link is an error. */
  lemma WebRoutesExactly(web: Web, text: string, obj: Blob)
    ensures (forall link :: Parse(text) != Ok(link)) ==>
              WebResolve(web, text) == Err(LinkFormatError) && WebValidate(web, obj, text) == Err(LinkFormatError)
    ensures forall link :: Parse(text) == Ok(link) ==>
              if link.space in web.spaces then
                var space := web.spaces[link.space];
                && WebResolve(web, text) == Resolve(space.kit, space.storage, link.hash)
                && WebValidate(web, obj, text) == Validate(space.kit, obj, link.hash)
              else
                && WebResolve(web, text) == Err(UnsupportedHashSpace)
                && WebValidate(web, obj, text) == Err(UnsupportedHashSpace)
  {
    if Parse(text).Err? { assert Parse(text) == Err(LinkFormatError); }
  }

  /** A store goes to the default space and leaves all others as they are. */
  lemma WebStoresInDefault(web: Web, obj: Blob)
    ensures var (result, web') := WebStore(web, obj);
            && web'.default == web.default && web'.spaces.Keys == web.spaces.Keys
            && (forall id :: id in web.spaces && id != web.default ==> web'.spaces[id] == web.spaces[id])
            && (web.default !in web.spaces ==> result == Err(UnsupportedHashSpace))
            && (web.default in web.spaces ==>
                  var (r, storage) := StoreAsync(web.spaces[web.default].kit, web.spaces[web.default].storage, obj);
                  && web'.spaces[web.default] == web.spaces[web.default].(storage := storage)
                  && (forall hash :: r == Ok(hash) ==> result == Ok(web.default + "/" + hash))
                  && (forall e :: r == Err(e) ==> result == Err(e)))
  {
  }

  function RunWebStores(web: Web, objects: seq<Blob>): (seq<Result<string>>, Web) {
    if objects == [] then ([], web) else
    var (results, web1) := RunWebStores(web, objects[..|objects| - 1]);
    var (result, web2) := WebStore(web1, objects[|objects| - 1]);
    (results + [result], web2)
  }

  // ------------------------------------------------------------------ theorems

  ghost predicate SoundSpace(space: Space) {
    space.kit.CollisionFree() && space.kit.Invertible() && KeysAreHashes(space.kit, space.storage)
  }

  ghost predicate SoundWeb(web: Web) {
    && web.default != "" && '/' !in web.default
    && forall id :: id in web.spaces ==> SoundSpace(web.spaces[id])
  }

  /** The plug-ins of the space that a link names. */
  function LinkKit(web: Web, text: string): Option<Kit> {
    if Parse(text).Ok? && Parse(text).value.space in web.spaces
    then Some(web.spaces[Parse(text).value.space].kit) else None
  }

  /** The link leads to the object, and validates it and no other object. */
  ghost predicate WebLeads(web: Web, obj: Blob, result: Result<string>) {
    result.Ok? ==>
      && WebResolve(web, result.value) == Ok(obj) && WebValidate(web, obj, result.value) == Ok(true)
      && forall o, kit :: LinkKit(web, result.value) == Some(kit) && kit.hash(o).Some? ==>
           WebValidate(web, o, result.value) == Ok(o == obj)
  }

  lemma WebStoreKeepsLinks(web: Web, obj: Blob)
    requires SoundWeb(web)
    ensures var (result, web') := WebStore(web, obj);
            && SoundWeb(web') && web'.default == web.default
            && WebLeads(web', obj, result)
            && forall o, text :: WebLeads(web, o, Ok(text)) ==> WebLeads(web', o, Ok(text))
  {
    if web.default in web.spaces {
      var space := web.spaces[web.default];
      StoreKeepsLinks(space.kit, true, space.storage, obj);
      NewLinkLeads(web, obj);
      forall o, text | WebLeads(web, o, Ok(text)) ensures WebLeads(WebStore(web, obj).1, o, Ok(text)) {
        OldLinkLeads(web, obj, o, text);
      }
    }
  }

  lemma NewLinkLeads(web: Web, obj: Blob)
    requires SoundWeb(web) && web.default in web.spaces
    ensures WebLeads(WebStore(web, obj).1, obj, WebStore(web, obj).0)
  {
    var space := web.spaces[web.default];
    StoreKeepsLinks(space.kit, true, space.storage, obj);
    var (result, storage) := StoreAsync(space.kit, space.storage, obj);
    if result.Ok? { LinkRoundTrip(Link(web.default, result.value)); }
  }

  lemma OldLinkLeads(web: Web, obj: Blob, o: Blob, text: string)
    requires SoundWeb(web) && web.default in web.spaces && WebLeads(web, o, Ok(text))
    ensures WebLeads(WebStore(web, obj).1, o, Ok(text))
  {
    var space, web', link := web.spaces[web.default], WebStore(web, obj).1, Parse(text).value;
    StoreKeepsLinks(space.kit, true, space.storage, obj);
    if link.space == web.default {
      var storage := StoreAsync(space.kit, space.storage, obj).1;
      assert Resolve(space.kit, storage, link.hash) == Resolve(space.kit, space.storage, link.hash);
    }
    assert LinkKit(web', text) == LinkKit(web, text);
    forall x ensures WebValidate(web', x, text) == WebValidate(web, x, text) { }
  }

  /** Over every run of stores into a web whose default space id is non-empty and slash-free, every
      link ever returned resolves to the object it was returned for, and validates it and no other. */
  lemma {:induction false} WebLinksStayGood(web: Web, objects: seq<Blob>)
    requires SoundWeb(web)
    ensures var (results, web') := RunWebStores(web, objects);
            && |results| == |objects| && SoundWeb(web') && web'.default == web.default
            && AllLead(web', objects, results)
  {
    if objects != [] {
      var before, last := objects[..|objects| - 1], objects[|objects| - 1];
      WebLinksStayGood(web, before);
      var (results, web1) := RunWebStores(web, before);
      WebStoreKeepsLinks(web1, last);
      var (result, web2) := WebStore(web1, last);
      AllLeadLonger(web1, web2, before, results, last, result);
      assert objects == before + [last];
    }
  }

  ghost predicate AllLead(web: Web, objects: seq<Blob>, results: seq<Result<string>>)
    requires |results| == |objects|
  {
    forall i :: 0 <= i < |objects| ==> WebLeads(web, objects[i], results[i])
  }

  lemma AllLeadLonger(web: Web, web': Web, objects: seq<Blob>, results: seq<Result<string>>, obj: Blob,
                      result: Result<string>)
    requires |results| == |objects| && AllLead(web, objects, results) && WebLeads(web', obj, result)
    requires forall o, text :: WebLeads(web, o, Ok(text)) ==> WebLeads(web', o, Ok(text))
    ensures AllLead(web', objects + [obj], results + [result])
  {
    forall i | 0 <= i < |objects| ensures WebLeads(web', objects[i], results[i]) {
      assert WebLeads(web, objects[i], results[i]);
      if results[i].Ok? { assert WebLeads(web, objects[i], Ok(results[i].value)); }
    }
  }

  // ------------------------------------------------------------------ the object

  /** `HashWeb`, whose spaces are updated in place. */
  class WebOfSpaces {
    const default: string
    var spaces: map<string, Space>

    constructor (spaces: map<string, Space>, default: string)
      ensures this.default == default && this.spaces == spaces
    {
      this.default, this.spaces := default, spaces;
    }

    method Store(obj: Blob) returns (result: Result<string>)
      modifies this
      ensures WebStore(Web(old(spaces), default), obj) == (result, Web(spaces, default))
      ensures SoundWeb(Web(old(spaces), default)) ==>
                SoundWeb(Web(spaces, default)) && WebLeads(Web(spaces, default), obj, result)
    {
      ghost var web := Web(spaces, default);
      if SoundWeb(web) { WebStoreKeepsLinks(web, obj); }
      if default !in spaces { return Err(UnsupportedHashSpace); }
      var space := spaces[default];
      var stored := StoreAsync(space.kit, space.storage, obj);
      spaces := spaces[default := space.(storage := stored.1)];
      result := if stored.0.Ok? then Ok(Printed(Link(default, stored.0.value))) else stored.0;
    }
  }
}
