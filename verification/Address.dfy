/** Multi-hop addresses: "space/hash#format@path/to/link&format@path/to/link". The blob behind the
    link is parsed with the named format, the attribute at the path is taken as the next link, and
    so on through the list. */
module Address {
  import opened Bytes
  import opened Prelude
  import opened Text
  import opened HashSpace
  import opened HashWeb

  // ------------------------------------------------------------------ attributes

  datatype Value = LinkValue(link: string) | Attributes(attrs: seq<Attribute>) | OtherValue(tag: nat)

  datatype Attribute = Attribute(name: string, value: Value)

  /** The first attribute of that name. */
  function FirstByName(attrs: seq<Attribute>, name: string): Option<Value> {
    if attrs == [] then None
    else if attrs[0].name == name then Some(attrs[0].value)
    else FirstByName(attrs[1..], name)
  }

  /** Each step but the last must lead to an object. */
  function FirstByPath(attrs: seq<Attribute>, path: seq<string>): Option<Value>
    decreases |path|
  {
    if path == [] then None else
    var first := FirstByName(attrs, path[0]);
    if |path| == 1 then first else
    match first
    case Some(Attributes(inner)) => FirstByPath(inner, path[1..])
    case _ => None
  }

  /** Looking up p ++ q is looking up q inside the object found at p. */
  lemma {:induction false} PathComposes(attrs: seq<Attribute>, p: seq<string>, q: seq<string>)
    requires p != [] && q != []
    ensures FirstByPath(attrs, p + q) ==
            match FirstByPath(attrs, p)
            case Some(Attributes(inner)) => FirstByPath(inner, q)
            case _ => None
    decreases |p|
  {
    if |p| == 1 {
      assert (p + q)[1..] == q;
    } else {
      assert (p + q)[1..] == p[1..] + q;
      match FirstByName(attrs, p[0])
      case Some(Attributes(inner)) => PathComposes(inner, p[1..], q);
      case _ =>
    }
  }

  /** `k` is the least index of an attribute of that name. */
  predicate FirstAt(attrs: seq<Attribute>, name: string, k: nat) {
    k < |attrs| && attrs[k].name == name && forall i :: 0 <= i < k ==> attrs[i].name != name
  }

  /** The path leads to the value: at each step to the first attribute of the name, which holds an
      object at every step but the last. */
  ghost predicate Reaches(attrs: seq<Attribute>, path: seq<string>, v: Value)
    decreases |path|
  {
    path != [] &&
    exists k: nat ::
      && FirstAt(attrs, path[0], k)
      && if |path| == 1 then attrs[k].value == v
         else attrs[k].value.Attributes? && Reaches(attrs[k].value.attrs, path[1..], v)
  }

  lemma {:induction false} FirstByNameExactly(attrs: seq<Attribute>, name: string, v: Value)
    ensures FirstByName(attrs, name) == Some(v) <==> exists k: nat :: FirstAt(attrs, name, k) && attrs[k].value == v
  {
    if attrs != [] {
      var rest := attrs[1..];
      if attrs[0].name == name {
        assert FirstAt(attrs, name, 0);
        forall k: nat | FirstAt(attrs, name, k) ensures k == 0 { }
      } else {
        FirstByNameExactly(rest, name, v);
        forall k: nat ensures FirstAt(attrs, name, k) <==> k > 0 && FirstAt(rest, name, k - 1) {
          if k > 0 && FirstAt(rest, name, k - 1) {
            forall i | 0 <= i < k ensures attrs[i].name != name { if i > 0 { assert attrs[i] == rest[i - 1]; } }
          }
          if k > 0 && FirstAt(attrs, name, k) {
            forall i | 0 <= i < k - 1 ensures rest[i].name != name { assert rest[i] == attrs[i + 1]; }
          }
        }
        if exists k: nat :: FirstAt(rest, name, k) && rest[k].value == v {
          var k: nat :| FirstAt(rest, name, k) && rest[k].value == v;
          assert FirstAt(attrs, name, k + 1) && attrs[k + 1].value == v;
        }
      }
    }
  }

  lemma OneFirst(attrs: seq<Attribute>, name: string, k: nat, m: nat)
    requires FirstAt(attrs, name, k) && FirstAt(attrs, name, m)
    ensures k == m
  {
  }

  /** The lookup finds exactly what the path leads to. */
  lemma {:induction false} LookupReaches(attrs: seq<Attribute>, path: seq<string>, v: Value)
    ensures FirstByPath(attrs, path) == Some(v) <==> Reaches(attrs, path, v)
    decreases |path|
  {
    if path == [] { return; }
    var first := FirstByName(attrs, path[0]);
    if |path| == 1 {
      FirstByNameExactly(attrs, path[0], v);
    } else if first.Some? {
      FirstByNameExactly(attrs, path[0], first.value);
      var k: nat :| FirstAt(attrs, path[0], k) && attrs[k].value == first.value;
      forall m: nat | FirstAt(attrs, path[0], m) ensures m == k { OneFirst(attrs, path[0], k, m); }
      if first.value.Attributes? { LookupReaches(first.value.attrs, path[1..], v); }
    } else {
      forall k: nat ensures !FirstAt(attrs, path[0], k) {
        if k < |attrs| { FirstByNameExactly(attrs, path[0], attrs[k].value); }
      }
    }
  }

  // ------------------------------------------------------------------ following one specifier

  datatype ResolutionError =
    | InHashSpace(error: Error) | UnknownFormat | FormatParserError | AttributeNotFound | WrongAttributeType

  /** The resolver panics, by slicing past the end, when a separator it counts on is missing. */
  datatype Outcome<+T> = Found(value: T) | Failed(error: ResolutionError) | Panic

  /** Registered formats: each parses a blob into attributes, or fails. */
  type Formats = map<string, Blob -> Option<seq<Attribute>>>

  function ResolveFormat(formats: Formats, format: string, blob: Blob): Outcome<seq<Attribute>> {
    if format !in formats then Failed(UnknownFormat) else
    match formats[format](blob)
    case None => Failed(FormatParserError)
    case Some(attrs) => Found(attrs)
  }

  function LinkAt(formats: Formats, blob: Blob, format: string, path: seq<string>): Outcome<string> {
    match ResolveFormat(formats, format, blob)
    case Failed(e) => Failed(e)
    case Panic => Panic
    case Found(attrs) =>
      match FirstByPath(attrs, path)
      case None => Failed(AttributeNotFound)
      case Some(LinkValue(link)) => Found(link)
      case Some(_) => Failed(WrongAttributeType)
  }

  /** Blob `blob`, parsed with the registered format, has the attributes. */
  predicate ParsesTo(formats: Formats, blob: Blob, format: string, attrs: seq<Attribute>) {
    format in formats && formats[format](blob) == Some(attrs)
  }

  /** The specifier leads from the blob to the link. */
  ghost predicate SpecLeads(formats: Formats, blob: Blob, format: string, path: seq<string>, link: string) {
    exists attrs :: ParsesTo(formats, blob, format, attrs) && Reaches(attrs, path, LinkValue(link))
  }

  /** What following one specifier comes to: a link exactly when the specifier leads to it, and each
      of the four errors exactly for its own reason. */
  lemma SpecExactly(formats: Formats, blob: Blob, format: string, path: seq<string>)
    ensures forall link :: LinkAt(formats, blob, format, path) == Found(link) <==>
              SpecLeads(formats, blob, format, path, link)
    ensures LinkAt(formats, blob, format, path) == Failed(UnknownFormat) <==> format !in formats
    ensures LinkAt(formats, blob, format, path) == Failed(FormatParserError) <==>
              format in formats && formats[format](blob).None?
    ensures LinkAt(formats, blob, format, path) == Failed(AttributeNotFound) <==>
              exists attrs :: ParsesTo(formats, blob, format, attrs) && forall v :: !Reaches(attrs, path, v)
    ensures LinkAt(formats, blob, format, path) == Failed(WrongAttributeType) <==>
              exists attrs, v :: ParsesTo(formats, blob, format, attrs) && Reaches(attrs, path, v) && !v.LinkValue?
  {
    if format in formats && formats[format](blob).Some? {
      var attrs := formats[format](blob).value;
      assert ParsesTo(formats, blob, format, attrs);
      var found := FirstByPath(attrs, path);
      forall v ensures found == Some(v) <==> Reaches(attrs, path, v) { LookupReaches(attrs, path, v); }
      assert found.Some? ==> Reaches(attrs, path, found.value);
    }
  }

  /** "format@path/to/attribute" */
  function ResolveAttrLink(formats: Formats, blob: Blob, spec: string): Outcome<string> {
    match Find(spec, '@')
    case None => Panic
    case Some(i) => LinkAt(formats, blob, spec[..i], Split(spec[i + 1..], '/'))
  }

  function FetchLink(web: Web, text: string): Outcome<Blob> {
    match WebResolve(web, text)
    case Err(e) => Failed(InHashSpace(e))
    case Ok(blob) => Found(blob)
  }

  /** What `and_then` makes of the blob so far and the next specifier. */
  function FollowText(web: Web, formats: Formats, blob: Outcome<Blob>, spec: string): Outcome<Blob> {
    match blob
    case Failed(e) => Failed(e)
    case Panic => Panic
    case Found(b) =>
      match ResolveAttrLink(formats, b, spec)
      case Failed(e) => Failed(e)
      case Panic => Panic
      case Found(link) => FetchLink(web, link)
  }

  function FollowTexts(web: Web, formats: Formats, blob: Outcome<Blob>, specs: seq<string>): Outcome<Blob> {
    if specs == [] then blob
    else FollowText(web, formats, FollowTexts(web, formats, blob, specs[..|specs| - 1]), specs[|specs| - 1])
  }

  /** The text of a specifier leads from the blob to the link: the format is what stands before the
      first `@`, the path is what stands behind it, from slash to slash. */
  ghost predicate TextLeads(formats: Formats, blob: Blob, text: string, link: string) {
    var i := Find(text, '@');
    i.Some? && SpecLeads(formats, blob, text[..i.value], Split(text[i.value + 1..], '/'), link)
  }

  ghost predicate TextHops(web: Web, formats: Formats, blob: Blob, text: string, out: Blob) {
    exists link :: TextLeads(formats, blob, text, link) && WebResolve(web, link) == Ok(out)
  }

  /** One specifier after the other leads from the blob to the blob `out`, link by link. */
  ghost predicate TextsLead(web: Web, formats: Formats, blob: Blob, texts: seq<string>, out: Blob) {
    if texts == [] then out == blob else
    var init, last := texts[..|texts| - 1], texts[|texts| - 1];
    exists mid :: TextsLead(web, formats, blob, init, mid) && TextHops(web, formats, mid, last, out)
  }

  /** The address leads to the blob. */
  ghost predicate AddressLeads(web: Web, formats: Formats, address: string, out: Blob) {
    var h := Find(address, '#');
    h.Some? && exists start :: WebResolve(web, address[..h.value]) == Ok(start)
                               && TextsLead(web, formats, start, Split(address[h.value + 1..], '&'), out)
  }

  lemma TextExactly(formats: Formats, blob: Blob, text: string, link: string)
    ensures ResolveAttrLink(formats, blob, text) == Found(link) <==> TextLeads(formats, blob, text, link)
  {
    var i := Find(text, '@');
    if i.Some? { SpecExactly(formats, blob, text[..i.value], Split(text[i.value + 1..], '/')); }
  }

  lemma HopExactly(web: Web, formats: Formats, blob: Blob, text: string, out: Blob)
    ensures FollowText(web, formats, Found(blob), text) == Found(out) <==> TextHops(web, formats, blob, text, out)
  {
    forall link ensures ResolveAttrLink(formats, blob, text) == Found(link) <==> TextLeads(formats, blob, text, link) {
      TextExactly(formats, blob, text, link);
    }
  }

  lemma {:induction false} TextsExactly(web: Web, formats: Formats, blob: Blob, texts: seq<string>, out: Blob)
    ensures FollowTexts(web, formats, Found(blob), texts) == Found(out) <==> TextsLead(web, formats, blob, texts, out)
    decreases |texts|
  {
    if texts != [] {
      var init, last := texts[..|texts| - 1], texts[|texts| - 1];
      var before := FollowTexts(web, formats, Found(blob), init);
      forall mid ensures before == Found(mid) <==> TextsLead(web, formats, blob, init, mid) {
        TextsExactly(web, formats, blob, init, mid);
      }
      if before.Found? { HopExactly(web, formats, before.value, last, out); }
    }
  }

  /** An address resolves to a blob exactly when it leads there. */
  lemma AddressExactly(web: Web, formats: Formats, address: string, out: Blob)
    ensures Resolved(web, formats, address) == Found(out) <==> AddressLeads(web, formats, address, out)
  {
    var h := Find(address, '#');
    if h.Some? {
      var first, texts := WebResolve(web, address[..h.value]), Split(address[h.value + 1..], '&');
      if first.Ok? { TextsExactly(web, formats, first.value, texts, out); }
      else { FailedStays(web, formats, FetchLink(web, address[..h.value]), texts); }
    }
  }

  /** The first error ends it. */
  lemma {:induction false} FailedStays(web: Web, formats: Formats, blob: Outcome<Blob>, texts: seq<string>)
    requires blob.Failed?
    ensures FollowTexts(web, formats, blob, texts) == blob
  {
    if texts != [] { FailedStays(web, formats, blob, texts[..|texts| - 1]); }
  }

  /** The outcome of an address. */
  function Resolved(web: Web, formats: Formats, address: string): Outcome<Blob> {
    match Find(address, '#')
    case None => Panic
    case Some(i) => FollowTexts(web, formats, FetchLink(web, address[..i]), Split(address[i + 1..], '&'))
  }

  /** `resolve_blob`: the future is extended by one step for each specifier in turn. */
  method ResolveBlob(web: Web, formats: Formats, address: string) returns (r: Outcome<Blob>)
    ensures r == Resolved(web, formats, address)
    ensures forall out :: r == Found(out) <==> AddressLeads(web, formats, address, out)
    ensures r.Panic? <==> Malformed(web, formats, address)
  {
    AddressPanicsExactly(web, formats, address);
    forall out ensures Resolved(web, formats, address) == Found(out) <==> AddressLeads(web, formats, address, out) {
      AddressExactly(web, formats, address, out);
    }
    var separator := Find(address, '#');
    if separator.None? { return Panic; }
    r := FetchLink(web, address[..separator.value]);
    var specs := Split(address[separator.value + 1..], '&');
    for i := 0 to |specs|
      invariant r == FollowTexts(web, formats, FetchLink(web, address[..separator.value]), specs[..i])
    {
      assert specs[..i + 1][..i] == specs[..i];
      r := FollowText(web, formats, r, specs[i]);
    }
    assert specs[..|specs|] == specs;
  }

  // ------------------------------------------------------------------ when it panics

  lemma SpecPanics(formats: Formats, blob: Blob, spec: string)
    ensures ResolveAttrLink(formats, blob, spec).Panic? <==> '@' !in spec
  {
  }

  /** Specifier `i` is reached, and has no `@`. */
  predicate StuckAt(web: Web, formats: Formats, start: Outcome<Blob>, specs: seq<string>, i: nat) {
    i < |specs| && FollowTexts(web, formats, start, specs[..i]).Found? && '@' !in specs[i]
  }

  /** Some specifier without `@` is reached. */
  ghost predicate GetsStuck(web: Web, formats: Formats, start: Outcome<Blob>, specs: seq<string>) {
    exists i: nat :: StuckAt(web, formats, start, specs, i)
  }

  lemma StuckLater(web: Web, formats: Formats, start: Outcome<Blob>, specs: seq<string>, last: string)
    ensures GetsStuck(web, formats, start, specs + [last]) <==>
            || GetsStuck(web, formats, start, specs)
            || (FollowTexts(web, formats, start, specs).Found? && '@' !in last)
  {
    var all := specs + [last];
    forall i: nat | i < |specs|
      ensures StuckAt(web, formats, start, all, i) <==> StuckAt(web, formats, start, specs, i)
    {
      assert all[..i] == specs[..i];
    }
    assert all[..|specs|] == specs;
    if GetsStuck(web, formats, start, specs) {
      var i: nat :| StuckAt(web, formats, start, specs, i);
      assert StuckAt(web, formats, start, all, i);
    }
    if FollowTexts(web, formats, start, specs).Found? && '@' !in last {
      assert StuckAt(web, formats, start, all, |specs|);
    }
  }

  /** Following specifiers panics exactly when one of them has no `@` and all before it were followed
      without an error; behind an error no specifier is read. */
  lemma {:induction false} PanicsExactly(web: Web, formats: Formats, start: Outcome<Blob>, specs: seq<string>)
    requires !start.Panic?
    ensures FollowTexts(web, formats, start, specs).Panic? <==> GetsStuck(web, formats, start, specs)
    decreases |specs|
  {
    if specs != [] {
      var init, last := specs[..|specs| - 1], specs[|specs| - 1];
      PanicsExactly(web, formats, start, init);
      assert specs == init + [last];
      StuckLater(web, formats, start, init, last);
      var before := FollowTexts(web, formats, start, init);
      if before.Found? { SpecPanics(formats, before.value, last); }
    }
  }

  /** The text has no `#`, or a specifier without `@` is reached. */
  ghost predicate Malformed(web: Web, formats: Formats, address: string) {
    match Find(address, '#')
    case None => true
    case Some(h) => GetsStuck(web, formats, FetchLink(web, address[..h]), Split(address[h + 1..], '&'))
  }

  /** An address panics exactly when it has no `#`, or a specifier without `@` is reached. */
  lemma AddressPanicsExactly(web: Web, formats: Formats, address: string)
    ensures Resolved(web, formats, address).Panic? <==> Malformed(web, formats, address)
  {
    match Find(address, '#')
    case None =>
    case Some(h) => PanicsExactly(web, formats, FetchLink(web, address[..h]), Split(address[h + 1..], '&'));
  }

  /** What a caller can check: with a `#`, and an `@` in every specifier, nothing panics. */
  lemma SafeAddressNeverPanics(web: Web, formats: Formats, address: string)
    requires '#' in address
    requires forall spec :: spec in Split(address[Find(address, '#').value + 1..], '&') ==> '@' in spec
    ensures !Resolved(web, formats, address).Panic?
  {
    AddressPanicsExactly(web, formats, address);
    var h := Find(address, '#').value;
    var start, specs := FetchLink(web, address[..h]), Split(address[h + 1..], '&');
    if GetsStuck(web, formats, start, specs) {
      var i: nat :| StuckAt(web, formats, start, specs, i);
      assert specs[i] in specs;
    }
  }

  // ------------------------------------------------------------------ structured addresses

  datatype Spec = Spec(format: string, path: seq<string>)

  /** Separators do not occur where they would be misread. */
  predicate GoodSpec(spec: Spec) {
    && '@' !in spec.format && '&' !in spec.format
    && spec.path != [] && FreeOf(spec.path, '/') && FreeOf(spec.path, '&')
  }

  predicate GoodSpecs(specs: seq<Spec>) {
    specs != [] && forall i :: 0 <= i < |specs| ==> GoodSpec(specs[i])
  }

  function PrintSpec(spec: Spec): string
    requires spec.path != []
  {
    spec.format + ['@'] + Join(spec.path, '/')
  }

  function PrintSpecs(specs: seq<Spec>): seq<string>
    requires GoodSpecs(specs)
  {
    seq(|specs|, i requires 0 <= i < |specs| => PrintSpec(specs[i]))
  }

  function PrintAddress(link: string, specs: seq<Spec>): string
    requires GoodSpecs(specs)
  {
    link + ['#'] + Join(PrintSpecs(specs), '&')
  }

  /** The meaning of an address, without any text: resolve the link, then for each specifier parse,
      look up, follow; the first error ends it. */
  function Walk(web: Web, formats: Formats, start: Outcome<Blob>, specs: seq<Spec>): Outcome<Blob>
    decreases |specs|
  {
    if specs == [] || !start.Found? then start else
    Walk(web, formats, Hop(web, formats, start.value, specs[0]), specs[1..])
  }

  function Hop(web: Web, formats: Formats, blob: Blob, spec: Spec): Outcome<Blob> {
    match LinkAt(formats, blob, spec.format, spec.path)
    case Failed(e) => Failed(e)
    case Panic => Panic
    case Found(link) => FetchLink(web, link)
  }

  lemma SpecReadsBack(formats: Formats, blob: Blob, spec: Spec)
    requires GoodSpec(spec)
    ensures ResolveAttrLink(formats, blob, PrintSpec(spec)) == LinkAt(formats, blob, spec.format, spec.path)
    ensures forall link ::
              TextLeads(formats, blob, PrintSpec(spec), link) <==>
              SpecLeads(formats, blob, spec.format, spec.path, link)
    ensures '&' !in PrintSpec(spec)
  {
    var text, path := PrintSpec(spec), Join(spec.path, '/');
    FindFirst(spec.format, '@', path);
    assert text[..|spec.format|] == spec.format && text[|spec.format| + 1..] == path;
    SplitJoin(spec.path, '/');
    JoinFree(spec.path, '/', '&');
  }

  lemma {:induction false} TextsFromFront(web: Web, formats: Formats, blob: Outcome<Blob>, specs: seq<string>)
    requires specs != []
    ensures FollowTexts(web, formats, blob, specs) ==
            FollowTexts(web, formats, FollowText(web, formats, blob, specs[0]), specs[1..])
    decreases |specs|
  {
    var init, tail, n := specs[..|specs| - 1], specs[1..], |specs|;
    if n == 1 {
      assert tail == [] && init == [];
      assert FollowTexts(web, formats, blob, []) == blob;
    } else {
      TextsFromFront(web, formats, blob, init);
      var next := FollowText(web, formats, blob, specs[0]);
      assert tail[..n - 2] == init[1..] && tail[n - 2] == specs[n - 1] && init[0] == specs[0];
      assert FollowTexts(web, formats, next, tail) ==
             FollowText(web, formats, FollowTexts(web, formats, next, init[1..]), specs[n - 1]);
    }
  }

  lemma {:induction false} TextsAreWalk(web: Web, formats: Formats, start: Outcome<Blob>, specs: seq<Spec>)
    requires GoodSpecs(specs)
    ensures FollowTexts(web, formats, start, PrintSpecs(specs)) == Walk(web, formats, start, specs)
    decreases |specs|
  {
    var texts := PrintSpecs(specs);
    TextsFromFront(web, formats, start, texts);
    if start.Found? { SpecReadsBack(formats, start.value, specs[0]); }
    var next := FollowText(web, formats, start, texts[0]);
    if |specs| > 1 {
      assert texts[1..] == PrintSpecs(specs[1..]);
      TextsAreWalk(web, formats, next, specs[1..]);
    } else {
      assert texts[1..] == [] && specs[1..] == [];
      assert FollowTexts(web, formats, next, []) == next;
    }
    if !start.Found? { assert next == start; }
  }

  ghost predicate SpecHops(web: Web, formats: Formats, blob: Blob, spec: Spec, out: Blob) {
    exists link :: SpecLeads(formats, blob, spec.format, spec.path, link) && WebResolve(web, link) == Ok(out)
  }

  /** One structured specifier after the other leads from the blob to the blob `out`. */
  ghost predicate SpecsLead(web: Web, formats: Formats, blob: Blob, specs: seq<Spec>, out: Blob) {
    if specs == [] then out == blob else
    var init, last := specs[..|specs| - 1], specs[|specs| - 1];
    exists mid :: SpecsLead(web, formats, blob, init, mid) && SpecHops(web, formats, mid, last, out)
  }

  lemma PrintedSpecHops(web: Web, formats: Formats, blob: Blob, spec: Spec, out: Blob)
    requires GoodSpec(spec)
    ensures TextHops(web, formats, blob, PrintSpec(spec), out) <==> SpecHops(web, formats, blob, spec, out)
  {
    SpecReadsBack(formats, blob, spec);
  }

  lemma {:induction false} PrintedSpecsLead(web: Web, formats: Formats, blob: Blob, specs: seq<Spec>, out: Blob)
    requires GoodSpecs(specs)
    ensures TextsLead(web, formats, blob, PrintSpecs(specs), out) <==> SpecsLead(web, formats, blob, specs, out)
    decreases |specs|
  {
    var texts, init, last := PrintSpecs(specs), specs[..|specs| - 1], specs[|specs| - 1];
    var before := texts[..|texts| - 1];
    forall mid
      ensures TextsLead(web, formats, blob, before, mid) <==> SpecsLead(web, formats, blob, init, mid)
      ensures TextHops(web, formats, mid, PrintSpec(last), out) <==> SpecHops(web, formats, mid, last, out)
    {
      if init != [] {
        assert before == PrintSpecs(init);
        PrintedSpecsLead(web, formats, blob, init, mid);
      }
      PrintedSpecHops(web, formats, mid, last, out);
    }
  }

  /** For every well-formed printed address, what `resolve_blob` computes from the text is the walk
      over the structured specifiers. */
  lemma PrintedAddressWalks(web: Web, formats: Formats, link: string, specs: seq<Spec>)
    requires '#' !in link && GoodSpecs(specs)
    ensures var address := PrintAddress(link, specs);
            && Find(address, '#') == Some(|link|)
            && Resolved(web, formats, address) == Walk(web, formats, FetchLink(web, link), specs)
            && !Resolved(web, formats, address).Panic?
            && forall out :: Resolved(web, formats, address) == Found(out) <==>
                 exists start :: WebResolve(web, link) == Ok(start) && SpecsLead(web, formats, start, specs, out)
  {
    var texts, address := PrintSpecs(specs), PrintAddress(link, specs);
    FindFirst(link, '#', Join(texts, '&'));
    assert address[..|link|] == link && address[|link| + 1..] == Join(texts, '&');
    forall i | 0 <= i < |texts| ensures '&' !in texts[i] { SpecReadsBack(formats, [], specs[i]); }
    SplitJoin(texts, '&');
    TextsAreWalk(web, formats, FetchLink(web, link), specs);
    forall i | 0 <= i < |texts| ensures '@' in texts[i] { SpecHasSeparator(specs[i]); }
    PanicsExactly(web, formats, FetchLink(web, link), texts);
    forall out ensures Resolved(web, formats, address) == Found(out) <==>
        exists start :: WebResolve(web, link) == Ok(start) && SpecsLead(web, formats, start, specs, out) {
      PrintedLeads(web, formats, link, specs, out);
    }
  }

  lemma PrintedLeads(web: Web, formats: Formats, link: string, specs: seq<Spec>, out: Blob)
    requires GoodSpecs(specs)
    ensures FollowTexts(web, formats, FetchLink(web, link), PrintSpecs(specs)) == Found(out) <==>
            exists start :: WebResolve(web, link) == Ok(start) && SpecsLead(web, formats, start, specs, out)
  {
    var first := WebResolve(web, link);
    if first.Ok? {
      TextsExactly(web, formats, first.value, PrintSpecs(specs), out);
      PrintedSpecsLead(web, formats, first.value, specs, out);
    } else {
      FailedStays(web, formats, FetchLink(web, link), PrintSpecs(specs));
    }
  }

  lemma SpecHasSeparator(spec: Spec)
    requires spec.path != []
    ensures '@' in PrintSpec(spec)
  {
    assert PrintSpec(spec)[|spec.format|] == '@';
  }
}
