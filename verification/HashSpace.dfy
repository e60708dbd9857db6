/** The content-addressed store `ModularHashSpace`, asynchronous and synchronous, over the
    in-memory store: hash the object, keep it under its hash, and hand out the hash as text. */
module HashSpace {
  import opened Bytes
  import opened Prelude

  datatype Error =
    | HashError | StringCoderError | InvalidKey | LinkFormatError | UnsupportedHashSpace

  datatype Result<+T> = Ok(value: T) | Err(error: Error)

  /** The plug-ins of a hash space: the hasher and the coder between hashes and text. */
  datatype Kit = Kit(
    hash: Blob -> Option<Blob>, encode: Blob -> Option<string>, decode: string -> Option<Blob>)
  {
    ghost predicate CollisionFree() {
      forall a, b :: hash(a).Some? && hash(a) == hash(b) ==> a == b
    }

    ghost predicate Invertible() {
      forall h :: encode(h).Some? ==> decode(encode(h).value) == Some(h)
    }

    /** `Hasher::validate`: recompute and compare. */
    function Check(obj: Blob, h: Blob): Result<bool> {
      match hash(obj)
      case None => Err(HashError)
      case Some(actual) => Ok(actual == h)
    }
  }

  type Storage = map<Blob, Blob>

  // ------------------------------------------------------------------ the two implementations

  /** The asynchronous store encodes before it writes. */
  function StoreAsync(kit: Kit, storage: Storage, obj: Blob): (Result<string>, Storage) {
    match kit.hash(obj)
    case None => (Err(HashError), storage)
    case Some(h) =>
      match kit.encode(h)
      case None => (Err(StringCoderError), storage)
      case Some(text) => (Ok(text), storage[h := obj])
  }

  /** The synchronous store writes before it encodes. */
  function StoreSync(kit: Kit, storage: Storage, obj: Blob): (Result<string>, Storage) {
    match kit.hash(obj)
    case None => (Err(HashError), storage)
    case Some(h) =>
      var storage' := storage[h := obj];
      match kit.encode(h)
      case None => (Err(StringCoderError), storage')
      case Some(text) => (Ok(text), storage')
  }

  function Resolve(kit: Kit, storage: Storage, text: string): Result<Blob> {
    match kit.decode(text)
    case None => Err(StringCoderError)
    case Some(h) =>
      if h !in storage then Err(InvalidKey) else
      match kit.Check(storage[h], h)
      case Err(e) => Err(e)
      case Ok(valid) => if valid then Ok(storage[h]) else Err(InvalidKey)
  }

  function Validate(kit: Kit, obj: Blob, text: string): Result<bool> {
    match kit.decode(text)
    case None => Err(StringCoderError)
    case Some(h) => kit.Check(obj, h)
  }

  /** A run of stores from an empty storage, by either implementation. */
  function RunStores(kit: Kit, async: bool, objects: seq<Blob>): (seq<Result<string>>, Storage) {
    if objects == [] then ([], map[]) else
    var (results, storage) := RunStores(kit, async, objects[..|objects| - 1]);
    var last := objects[|objects| - 1];
    var (result, storage') := if async then StoreAsync(kit, storage, last) else StoreSync(kit, storage, last);
    (results + [result], storage')
  }

  // ------------------------------------------------------------------ theorems

  ghost predicate KeysAreHashes(kit: Kit, storage: Storage) {
    forall h :: h in storage ==> kit.hash(storage[h]) == Some(h)
  }

  /** The link returned for `obj` leads back to it, and validates it and no other object. */
  ghost predicate Leads(kit: Kit, storage: Storage, obj: Blob, result: Result<string>) {
    result.Ok? ==>
      && Resolve(kit, storage, result.value) == Ok(obj) && kit.hash(obj).Some?
      && forall o :: kit.hash(o).Some? ==> Validate(kit, o, result.value) == Ok(o == obj)
  }

  /** Validation says yes exactly when the text stands for the hash of the object, and no exactly when
      it stands for anything else. */
  lemma ValidatesExactly(kit: Kit, obj: Blob, text: string)
    ensures Validate(kit, obj, text) == Ok(true) <==> kit.hash(obj).Some? && kit.decode(text) == kit.hash(obj)
    ensures Validate(kit, obj, text) == Ok(false) <==>
              kit.hash(obj).Some? && kit.decode(text).Some? && kit.decode(text) != kit.hash(obj)
    ensures Validate(kit, obj, text) == Err(StringCoderError) <==> kit.decode(text).None?
    ensures Validate(kit, obj, text) == Err(HashError) <==> kit.decode(text).Some? && kit.hash(obj).None?
  {
  }

  /** Whatever the storage holds, sound or not, a text resolves to an object exactly when the object
      is kept under what the text stands for, and that is its hash. */
  lemma ResolvesExactly(kit: Kit, storage: Storage, text: string, obj: Blob)
    ensures Resolve(kit, storage, text) == Ok(obj) <==>
            && kit.decode(text).Some? && kit.decode(text) == kit.hash(obj)
            && kit.decode(text).value in storage && storage[kit.decode(text).value] == obj
    ensures Resolve(kit, storage, text) == Err(StringCoderError) <==> kit.decode(text).None?
  {
  }

  /** A store succeeds with the text of the object's hash, fails without a hash or without a text,
      and keeps everything else it held. */
  lemma StoresExactly(kit: Kit, async: bool, storage: Storage, obj: Blob)
    ensures var (result, storage') := if async then StoreAsync(kit, storage, obj) else StoreSync(kit, storage, obj);
            && (forall text :: result == Ok(text) <==>
                  kit.hash(obj).Some? && kit.encode(kit.hash(obj).value) == Some(text))
            && (result == Err(HashError) <==> kit.hash(obj).None?)
            && (result == Err(StringCoderError) <==> kit.hash(obj).Some? && kit.encode(kit.hash(obj).value).None?)
            && (result.Ok? ==> kit.hash(obj).value in storage' && storage'[kit.hash(obj).value] == obj)
            && (forall h :: Some(h) != kit.hash(obj) ==> (h in storage' <==> h in storage))
            && (forall h :: Some(h) != kit.hash(obj) && h in storage ==> storage'[h] == storage[h])
  {
  }

  lemma StoreKeepsLinks(kit: Kit, async: bool, storage: Storage, obj: Blob)
    requires kit.CollisionFree() && kit.Invertible() && KeysAreHashes(kit, storage)
    ensures var (result, storage') := if async then StoreAsync(kit, storage, obj) else StoreSync(kit, storage, obj);
            && KeysAreHashes(kit, storage')
            && Leads(kit, storage', obj, result)
            && forall text :: Resolve(kit, storage, text).Ok? ==>
                Resolve(kit, storage', text) == Resolve(kit, storage, text)
  {
    var h := kit.hash(obj);
    if h.Some? && h.value in storage {
      assert storage[h.value] == obj;
      assert storage[h.value := obj] == storage;
    }
    if h.Some? && kit.encode(h.value).Some? {
      var text := kit.encode(h.value).value;
      assert kit.decode(text) == h;
      forall o | kit.hash(o).Some? ensures Validate(kit, o, text) == Ok(o == obj) {
        ValidatesExactly(kit, o, text);
      }
    }
  }

  /** Over every run of stores, each key is the hash of its value and every link ever returned
      still resolves to the object it was returned for, and validates that object and no other. */
  lemma {:induction false} LinksStayGood(kit: Kit, async: bool, objects: seq<Blob>)
    requires kit.CollisionFree() && kit.Invertible()
    ensures var (results, storage) := RunStores(kit, async, objects);
            && |results| == |objects| && KeysAreHashes(kit, storage)
            && forall i :: 0 <= i < |objects| ==> Leads(kit, storage, objects[i], results[i])
  {
    if objects != [] {
      var before, last := objects[..|objects| - 1], objects[|objects| - 1];
      LinksStayGood(kit, async, before);
      var (results, storage) := RunStores(kit, async, before);
      StoreKeepsLinks(kit, async, storage, last);
      var (results', storage') := RunStores(kit, async, objects);
      forall i | 0 <= i < |objects| ensures Leads(kit, storage', objects[i], results'[i]) {
        if i < |before| { assert Leads(kit, storage, before[i], results[i]); }
      }
    }
  }

  /** The hash of every stored object can be written as text. */
  predicate AllEncodable(kit: Kit, objects: seq<Blob>) {
    forall i :: 0 <= i < |objects| && kit.hash(objects[i]).Some? ==> kit.encode(kit.hash(objects[i]).value).Some?
  }

  /** What the asynchronous storage holds is the encodable part of the synchronous one. */
  ghost predicate EncodablePart(kit: Kit, async: Storage, sync: Storage) {
    forall h :: && (h in async <==> h in sync && kit.encode(h).Some?)
                && (h in async ==> async[h] == sync[h])
  }

  /** Both implementations answer every store alike. Their storages are the same exactly when no
      hash of a stored object failed to encode, and then every text resolves alike. */
  lemma {:induction false} AsyncMatchesSync(kit: Kit, objects: seq<Blob>)
    ensures RunStores(kit, true, objects).0 == RunStores(kit, false, objects).0
    ensures EncodablePart(kit, RunStores(kit, true, objects).1, RunStores(kit, false, objects).1)
    ensures AllEncodable(kit, objects) <==> RunStores(kit, true, objects).1 == RunStores(kit, false, objects).1
  {
    if objects != [] {
      var before, last := objects[..|objects| - 1], objects[|objects| - 1];
      AsyncMatchesSync(kit, before);
      var a, s := RunStores(kit, true, objects).1, RunStores(kit, false, objects).1;
      assert EncodablePart(kit, a, s);
      AllHashesStored(kit, objects);
      if AllEncodable(kit, objects) {
        assert forall i :: 0 <= i < |before| ==> before[i] == objects[i];
        assert AllEncodable(kit, before);
        assert kit.hash(last).Some? ==> kit.encode(kit.hash(last).value).Some?;
      } else {
        var i :| 0 <= i < |objects| && kit.hash(objects[i]).Some? && kit.encode(kit.hash(objects[i]).value).None?;
        assert kit.hash(objects[i]).value in s && kit.hash(objects[i]).value !in a;
      }
    }
  }

  lemma {:induction false} AllHashesStored(kit: Kit, objects: seq<Blob>)
    ensures forall i :: 0 <= i < |objects| && kit.hash(objects[i]).Some? ==>
              kit.hash(objects[i]).value in RunStores(kit, false, objects).1
  {
    if objects != [] { AllHashesStored(kit, objects[..|objects| - 1]); }
  }

  // ------------------------------------------------------------------ the objects

  /** storage/src/async/mod.rs */
  class AsyncSpace {
    const kit: Kit
    var storage: Storage

    constructor (kit: Kit)
      ensures this.kit == kit && storage == map[]
    {
      this.kit := kit;
      storage := map[];
    }

    method Store(obj: Blob) returns (result: Result<string>)
      modifies this
      ensures (result, storage) == StoreAsync(kit, old(storage), obj)
      ensures kit.CollisionFree() && kit.Invertible() && KeysAreHashes(kit, old(storage)) ==>
                && KeysAreHashes(kit, storage) && Leads(kit, storage, obj, result)
                && forall text :: Resolve(kit, old(storage), text).Ok? ==>
                     Resolve(kit, storage, text) == Resolve(kit, old(storage), text)
    {
      if kit.CollisionFree() && kit.Invertible() && KeysAreHashes(kit, storage) {
        StoreKeepsLinks(kit, true, storage, obj);
      }
      var h := kit.hash(obj);
      if h.None? { return Err(HashError); }
      var text := kit.encode(h.value);
      if text.None? { return Err(StringCoderError); }
      storage := storage[h.value := obj];
      result := Ok(text.value);
    }
  }

  /** storage/src/sync/mod.rs */
  class SyncSpace {
    const kit: Kit
    var storage: Storage

    constructor (kit: Kit)
      ensures this.kit == kit && storage == map[]
    {
      this.kit := kit;
      storage := map[];
    }

    method Store(obj: Blob) returns (result: Result<string>)
      modifies this
      ensures (result, storage) == StoreSync(kit, old(storage), obj)
      ensures kit.CollisionFree() && kit.Invertible() && KeysAreHashes(kit, old(storage)) ==>
                && KeysAreHashes(kit, storage) && Leads(kit, storage, obj, result)
                && forall text :: Resolve(kit, old(storage), text).Ok? ==>
                     Resolve(kit, storage, text) == Resolve(kit, old(storage), text)
    {
      if kit.CollisionFree() && kit.Invertible() && KeysAreHashes(kit, storage) {
        StoreKeepsLinks(kit, false, storage, obj);
      }
      var h := kit.hash(obj);
      if h.None? { return Err(HashError); }
      storage := storage[h.value := obj];
      var text := kit.encode(h.value);
      if text.None? { return Err(StringCoderError); }
      result := Ok(text.value);
    }
  }
}
