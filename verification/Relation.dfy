/** Relation proofs of home-protocol: the bytes that are signed, half-proofs, countersigning,
    the canonical two-sided proof and its validation. The signature scheme and the profile hash
    are a parameter of every function, so each result holds for every scheme that meets the
    properties its `requires` names. */
module Relation {
  import opened Bytes
  import opened Prelude

  type ProfileId = Blob
  type PublicKey = Blob
  type SecretKey = Blob
  type Signature = Blob

  /** What `validate_signature` returns: `Ok(bool)` or an error. */
  datatype SignatureCheck = Checked(valid: bool) | CheckFailed

  /** Signing, checking, and "this key hashes to this id". */
  datatype Scheme = Scheme(
    publicOf: SecretKey -> PublicKey,
    sign: (SecretKey, Blob) -> Signature,
    check: (PublicKey, Blob, Signature) -> SignatureCheck,
    matches: (PublicKey, ProfileId) -> bool)
  {
    /** The proof validators go on after `Ok(false)`: only an error makes them refuse. */
    predicate Accepts(key: PublicKey, data: Blob, signature: Signature) {
      !check(key, data, signature).CheckFailed?
    }

    /** Checking accepts what signing made (section 5.1.7 of RFC 8032). */
    ghost predicate Correct() {
      forall sk, data :: check(publicOf(sk), data, sign(sk, data)) == Checked(true)
    }

    /** The Ed25519 validator never answers `Ok(false)`. */
    ghost predicate Definite() {
      forall key, data, signature :: check(key, data, signature) != Checked(false)
    }

    /** The same scheme with an error wherever it answers `Ok(false)`: what the validators would
        accept if they looked at the boolean. */
    function Strict(): Scheme {
      var c := check;
      this.(check := (key, data, signature) =>
        if c(key, data, signature) == Checked(true) then Checked(true) else CheckFailed)
    }

    /** One signature is accepted for one message only. */
    ghost predicate Binding() {
      forall key, d1, d2, signature ::
        Accepts(key, d1, signature) && Accepts(key, d2, signature) ==> d1 == d2
    }

    /** No two keys hash to the same id. */
    ghost predicate CollisionFree() {
      forall k1, k2, id :: matches(k1, id) && matches(k2, id) ==> k1 == k2
    }
  }

  datatype Signer = Signer(id: ProfileId, publicKey: PublicKey, secret: SecretKey) {
    predicate Valid(cs: Scheme) {
      publicKey == cs.publicOf(secret) && cs.matches(publicKey, id)
    }
  }

  datatype SignablePart = SignablePart(relationType: Blob, signerId: ProfileId, peerId: ProfileId)

  datatype HalfProof =
    HalfProof(relationType: Blob, signerId: ProfileId, peerId: ProfileId, signature: Signature)

  datatype Proof = Proof(
    relationType: Blob,
    aId: ProfileId, aSignature: Signature,
    bId: ProfileId, bSignature: Signature)

  // ------------------------------------------------------------------ signed bytes

  /** A string or byte vector is written as its u64 length and its bytes. */
  function Framed(b: Blob): Blob {
    ToLittleEndian(|b|, U64_BYTES) + b
  }

  function Serialized(p: SignablePart): Blob {
    Framed(p.relationType) + Framed(p.signerId) + Framed(p.peerId)
  }

  /** Every length fits the u64 it is written in. */
  predicate Encodable(p: SignablePart) {
    |p.relationType| < U64_RANGE && |p.signerId| < U64_RANGE && |p.peerId| < U64_RANGE
  }

  /** Reads one framed value off the front of `b`. */
  function Unframed(b: Blob): Option<(Blob, Blob)> {
    if |b| < U64_BYTES then None else
    var n := FromLittleEndian(b[..U64_BYTES]);
    if |b| < U64_BYTES + n then None else Some((b[U64_BYTES..U64_BYTES + n], b[U64_BYTES + n..]))
  }

  function ParsePart(b: Blob): Option<(SignablePart, Blob)> {
    match Unframed(b)
    case None => None
    case Some((relationType, b1)) =>
      match Unframed(b1)
      case None => None
      case Some((signerId, b2)) =>
        match Unframed(b2)
        case None => None
        case Some((peerId, rest)) => Some((SignablePart(relationType, signerId, peerId), rest))
  }

  lemma FramedRoundTrip(b: Blob, rest: Blob)
    requires |b| < U64_RANGE
    ensures Unframed(Framed(b) + rest) == Some((b, rest))
  {
    WidthRanges();
    LittleEndianRoundTrip(|b|, U64_BYTES);
    var all := Framed(b) + rest;
    assert all[..U64_BYTES] == ToLittleEndian(|b|, U64_BYTES);
    assert all[U64_BYTES..U64_BYTES + |b|] == b;
    assert all[U64_BYTES + |b|..] == rest;
  }

  /** The signed bytes decode to the statement they were made from, whatever follows them. */
  lemma SerializedRoundTrip(p: SignablePart, rest: Blob)
    requires Encodable(p)
    ensures ParsePart(Serialized(p) + rest) == Some((p, rest))
  {
    var b2 := Framed(p.peerId) + rest;
    var b1 := Framed(p.signerId) + b2;
    Regrouped(Framed(p.relationType), Framed(p.signerId), Framed(p.peerId), rest);
    FramedRoundTrip(p.relationType, b1);
    FramedRoundTrip(p.signerId, b2);
    FramedRoundTrip(p.peerId, rest);
  }

  lemma Regrouped(a: Blob, b: Blob, c: Blob, d: Blob)
    ensures a + b + c + d == a + (b + (c + d))
  {
  }

  lemma SerializedInjective(p: SignablePart, q: SignablePart, s: Blob, t: Blob)
    requires Encodable(p) && Encodable(q)
    requires Serialized(p) + s == Serialized(q) + t
    ensures p == q && s == t
  {
    SerializedRoundTrip(p, s);
    SerializedRoundTrip(q, t);
  }

  // ------------------------------------------------------------------ half-proofs

  function PartOf(half: HalfProof): SignablePart {
    SignablePart(half.relationType, half.signerId, half.peerId)
  }

  function NewHalf(cs: Scheme, relationType: Blob, peerId: ProfileId, signer: Signer): HalfProof {
    HalfProof(relationType, signer.id, peerId,
              cs.sign(signer.secret, Serialized(SignablePart(relationType, signer.id, peerId))))
  }

  predicate ValidHalf(cs: Scheme, half: HalfProof, key: PublicKey) {
    cs.Accepts(key, Serialized(PartOf(half)), half.signature)
  }

  /** A binding scheme makes one signature stand for one directed statement. */
  lemma OneSignatureOneStatement(cs: Scheme, key: PublicKey, h1: HalfProof, h2: HalfProof)
    requires cs.Binding() && h1.signature == h2.signature
    requires Encodable(PartOf(h1)) && Encodable(PartOf(h2))
    requires ValidHalf(cs, h1, key) && ValidHalf(cs, h2, key)
    ensures h1 == h2
  {
    var s1, s2 := Serialized(PartOf(h1)), Serialized(PartOf(h2));
    assert s1 == s2;
    assert s1 + [] == s1 && s2 + [] == s2;
    SerializedInjective(PartOf(h1), PartOf(h2), [], []);
  }


  // ------------------------------------------------------------------ two-sided proofs

  /** The party with the smaller id comes first. */
  function NewProof(relationType: Blob, aId: ProfileId, aSignature: Signature,
                    bId: ProfileId, bSignature: Signature): Proof
  {
    if Less(aId, bId) then Proof(relationType, aId, aSignature, bId, bSignature)
    else Proof(relationType, bId, bSignature, aId, aSignature)
  }

  function SignRemainingHalf(cs: Scheme, half: HalfProof, signer: Signer): Option<Proof> {
    if half.peerId != signer.id then None else
    var mine := cs.sign(signer.secret,
                        Serialized(SignablePart(half.relationType, signer.id, half.signerId)));
    Some(NewProof(half.relationType, half.signerId, half.signature, signer.id, mine))
  }

  function PeerId(p: Proof, my: ProfileId): Option<ProfileId> {
    if p.aId == my then Some(p.bId) else if p.bId == my then Some(p.aId) else None
  }

  predicate ValidProof(cs: Scheme, p: Proof, id1: ProfileId, key1: PublicKey,
                       id2: ProfileId, key2: PublicKey)
  {
    var dataA := Serialized(SignablePart(p.relationType, p.aId, p.bId));
    var dataB := Serialized(SignablePart(p.relationType, p.bId, p.aId));
    match PeerId(p, id1)
    case None => false
    case Some(peer) =>
      if peer != id2 then false
      else if peer == p.bId then
        cs.Accepts(key1, dataA, p.aSignature) && cs.Accepts(key2, dataB, p.bSignature)
      else
        cs.Accepts(key1, dataB, p.bSignature) && cs.Accepts(key2, dataA, p.aSignature)
  }

  /** `id` stated, under `key`, its own direction of the relation with `peer`. */
  predicate Stated(cs: Scheme, p: Proof, id: ProfileId, key: PublicKey, peer: ProfileId) {
    ValidHalf(cs, HalfProof(p.relationType, id, peer, if p.aId == id then p.aSignature else p.bSignature), key)
  }

  /** What validation means between two parties: the proof names exactly them and holds a
      statement of each about the other. */
  lemma ValidProofMeaning(cs: Scheme, p: Proof, id1: ProfileId, key1: PublicKey,
                          id2: ProfileId, key2: PublicKey)
    requires p.aId != p.bId
    ensures ValidProof(cs, p, id1, key1, id2, key2) <==>
            && id1 != id2 && {p.aId, p.bId} == {id1, id2}
            && Stated(cs, p, id1, key1, id2) && Stated(cs, p, id2, key2, id1)
  {
    if {p.aId, p.bId} == {id1, id2} && id1 != id2 {
      assert id1 in {p.aId, p.bId} && id2 in {p.aId, p.bId};
    }
  }

  /** The answer of the check on what `id` stated about `peer` under that signature. */
  function AnswerFor(cs: Scheme, p: Proof, id: ProfileId, key: PublicKey, peer: ProfileId, signature: Signature)
    : SignatureCheck
  {
    cs.check(key, Serialized(SignablePart(p.relationType, id, peer)), signature)
  }

  /** What the two checks of a validation answer; the signatures are in the order of the parties. */
  function Answers(cs: Scheme, p: Proof, id1: ProfileId, key1: PublicKey, id2: ProfileId, key2: PublicKey)
    : set<SignatureCheck>
  {
    var (s1, s2) := if id1 == p.aId then (p.aSignature, p.bSignature) else (p.bSignature, p.aSignature);
    {AnswerFor(cs, p, id1, key1, id2, s1), AnswerFor(cs, p, id2, key2, id1, s2)}
  }

  /** The validator drops the boolean of the signature check. It accepts a proof that does not
      verify exactly when the proof relates the two parties, neither check is an error, and one of
      them answers `Ok(false)`; a proof that names one id twice is no exception. */
  lemma AcceptedUnverified(cs: Scheme, p: Proof, id1: ProfileId, key1: PublicKey, id2: ProfileId, key2: PublicKey)
    ensures ValidProof(cs, p, id1, key1, id2, key2) && !ValidProof(cs.Strict(), p, id1, key1, id2, key2) <==>
            && PeerId(p, id1) == Some(id2)
            && CheckFailed !in Answers(cs, p, id1, key1, id2, key2)
            && Checked(false) in Answers(cs, p, id1, key1, id2, key2)
  {
    if PeerId(p, id1) == Some(id2) {
      AcceptsIsNoFailure(cs, p, id1, key1, id2, key2);
      AcceptsIsNoFailure(cs.Strict(), p, id1, key1, id2, key2);
    }
  }

  /** For the parties a proof relates, validation is the absence of an error. */
  lemma AcceptsIsNoFailure(cs: Scheme, p: Proof, id1: ProfileId, key1: PublicKey, id2: ProfileId, key2: PublicKey)
    requires PeerId(p, id1) == Some(id2)
    ensures ValidProof(cs, p, id1, key1, id2, key2) <==> CheckFailed !in Answers(cs, p, id1, key1, id2, key2)
  {
  }

  /** The same for half-proofs, which registration and pairing requests rest on. */
  lemma AcceptedHalfUnverified(cs: Scheme, half: HalfProof, key: PublicKey)
    ensures ValidHalf(cs, half, key) && !ValidHalf(cs.Strict(), half, key) <==>
            cs.check(key, Serialized(PartOf(half)), half.signature) == Checked(false)
    ensures cs.Definite() ==> ValidHalf(cs, half, key) == ValidHalf(cs.Strict(), half, key)
  {
  }

  /** So for every scheme that never answers `Ok(false)`, validation is verification. */
  lemma DefiniteVerifies(cs: Scheme, p: Proof, id1: ProfileId, key1: PublicKey, id2: ProfileId, key2: PublicKey)
    requires cs.Definite()
    ensures ValidProof(cs, p, id1, key1, id2, key2) == ValidProof(cs.Strict(), p, id1, key1, id2, key2)
  {
    forall key, data, signature
      ensures cs.Accepts(key, data, signature) == cs.Strict().Accepts(key, data, signature)
    {
      assert cs.check(key, data, signature) != Checked(false);
    }
  }

  /** A scheme that answers `Ok(false)`, correct as it may be, does validate a proof with two empty
      signatures. */
  lemma UnverifiedProofExists()
    ensures exists cs: Scheme, p: Proof, k1, k2 ::
              && cs.Correct() && cs.CollisionFree() && p.aId != p.bId && p.aSignature == p.bSignature == []
              && ValidProof(cs, p, p.aId, k1, p.bId, k2) && !ValidProof(cs.Strict(), p, p.aId, k1, p.bId, k2)
  {
    var cs := Scheme(sk => sk, (sk, d) => [1] + sk, (k, d, s) => Checked(s == [1] + k), (k, id) => k == id);
    var p := Proof([], [1], [], [2], []);
    assert cs.check([1], Serialized(SignablePart([], [1], [2])), []) == Checked(false);
    assert cs.Correct() && cs.CollisionFree();
    assert ValidProof(cs, p, p.aId, [1], p.bId, [2]) && !ValidProof(cs.Strict(), p, p.aId, [1], p.bId, [2]);
  }

  /** Swapping the two (id, key) pairs does not change the verdict. */
  lemma ValidProofSymmetric(cs: Scheme, p: Proof, id1: ProfileId, key1: PublicKey,
                            id2: ProfileId, key2: PublicKey)
    requires p.aId != p.bId || key1 == key2
    ensures ValidProof(cs, p, id1, key1, id2, key2) == ValidProof(cs, p, id2, key2, id1, key1)
  {
  }

  /** Between parties whose keys hash to their ids it is symmetric without exception. */
  lemma ValidProofSymmetricForProfiles(cs: Scheme, p: Proof, id1: ProfileId, key1: PublicKey,
                                       id2: ProfileId, key2: PublicKey)
    requires cs.CollisionFree() && cs.matches(key1, id1) && cs.matches(key2, id2)
    ensures ValidProof(cs, p, id1, key1, id2, key2) == ValidProof(cs, p, id2, key2, id1, key1)
  {
    if p.aId == p.bId && id1 == id2 {
      assert key1 == key2;
      ValidProofSymmetric(cs, p, id1, key1, id2, key2);
    }
  }

  /** The inputs on which the verdict cannot depend on the order. */
  predicate OrderCannotMatter(p: Proof, id1: ProfileId, key1: PublicKey, id2: ProfileId, key2: PublicKey) {
    p.aId != p.bId || key1 == key2 || p.aSignature == p.bSignature || id1 != p.aId || id2 != p.aId
  }

  /** Exactly on these inputs is validation symmetric whatever the scheme. */
  lemma SymmetricExactly(p: Proof, id1: ProfileId, key1: PublicKey, id2: ProfileId, key2: PublicKey)
    ensures OrderCannotMatter(p, id1, key1, id2, key2) <==>
            forall cs: Scheme :: ValidProof(cs, p, id1, key1, id2, key2) == ValidProof(cs, p, id2, key2, id1, key1)
  {
    if !OrderCannotMatter(p, id1, key1, id2, key2) {
      var cs := Scheme(sk => sk, (sk, d) => sk,
        (k, d, s) => if (k == key1 && s == p.aSignature) || (k == key2 && s == p.bSignature)
                     then Checked(true) else CheckFailed,
        (k, id) => true);
      assert ValidProof(cs, p, id1, key1, id2, key2) && !ValidProof(cs, p, id2, key2, id1, key1);
    } else {
      forall cs: Scheme ensures ValidProof(cs, p, id1, key1, id2, key2) == ValidProof(cs, p, id2, key2, id1, key1) {
        if p.aId != p.bId || key1 == key2 { ValidProofSymmetric(cs, p, id1, key1, id2, key2); }
      }
    }
  }

  /** With two unrelated keys a proof that names one id twice can validate in one order only. */
  lemma SelfRelationCanBeAsymmetric()
    ensures exists cs: Scheme, p: Proof, k1, k2 ::
              p.aId == p.bId &&
              ValidProof(cs, p, p.aId, k1, p.aId, k2) && !ValidProof(cs, p, p.aId, k2, p.aId, k1)
  {
    var cs := Scheme(sk => sk, (sk, d) => sk,
                     (k, d, s) => if k == s then Checked(true) else CheckFailed, (k, id) => true);
    var p := Proof([], [], [1], [], [2]);
    assert ValidProof(cs, p, p.aId, [1], p.aId, [2]) && !ValidProof(cs, p, p.aId, [2], p.aId, [1]);
  }

  // ------------------------------------------------------------------ countersigning

  /** A half-proof its addressee countersigns becomes a proof that validates for the two,
      in both orders, when the half-proof itself was accepted. */
  lemma CountersignedValidates(cs: Scheme, half: HalfProof, key: PublicKey, signer: Signer)
    requires cs.Correct() && cs.CollisionFree() && signer.Valid(cs)
    requires cs.matches(key, half.signerId) && ValidHalf(cs, half, key) && half.peerId == signer.id
    ensures var p := SignRemainingHalf(cs, half, signer);
            && p.Some?
            && PeerId(p.value, signer.id) == Some(half.signerId)
            && PeerId(p.value, half.signerId) == Some(signer.id)
            && ValidProof(cs, p.value, half.signerId, key, signer.id, signer.publicKey)
            && ValidProof(cs, p.value, signer.id, signer.publicKey, half.signerId, key)
  {
    var data := Serialized(SignablePart(half.relationType, signer.id, half.signerId));
    assert cs.check(cs.publicOf(signer.secret), data, cs.sign(signer.secret, data)) == Checked(true);
    Trichotomy(half.signerId, signer.id);
    if half.signerId == signer.id {
      assert key == signer.publicKey;
    }
  }

  lemma NewHalfValid(cs: Scheme, relationType: Blob, peerId: ProfileId, signer: Signer)
    requires cs.Correct() && signer.Valid(cs)
    ensures ValidHalf(cs, NewHalf(cs, relationType, peerId, signer), signer.publicKey)
  {
    var data := Serialized(SignablePart(relationType, signer.id, peerId));
    assert cs.check(cs.publicOf(signer.secret), data, cs.sign(signer.secret, data)) == Checked(true);
  }

  /** Whoever starts, the two parties end up with one and the same proof, and it validates. */
  lemma PairingIsCanonical(cs: Scheme, relationType: Blob, a: Signer, b: Signer)
    requires cs.Correct() && cs.CollisionFree() && a.Valid(cs) && b.Valid(cs) && a.id != b.id
    ensures var byB := SignRemainingHalf(cs, NewHalf(cs, relationType, b.id, a), b);
            var byA := SignRemainingHalf(cs, NewHalf(cs, relationType, a.id, b), a);
            && byB.Some? && byA == byB
            && Less(byB.value.aId, byB.value.bId)
            && ValidProof(cs, byB.value, a.id, a.publicKey, b.id, b.publicKey)
            && ValidProof(cs, byB.value, b.id, b.publicKey, a.id, a.publicKey)
  {
    Trichotomy(a.id, b.id);
    NewHalfValid(cs, relationType, b.id, a);
    CountersignedValidates(cs, NewHalf(cs, relationType, b.id, a), a.publicKey, b);
  }

  /** Schemes of the assumed kind exist. */
  lemma IdealSchemeExists()
    ensures exists cs: Scheme ::
              cs.Correct() && cs.Definite() && cs.Binding() && cs.CollisionFree()
  {
    var cs := Scheme(sk => sk, (sk, d) => Framed(sk) + d,
                     (k, d, s) => if s == Framed(k) + d then Checked(true) else CheckFailed,
                     (k, id) => k == id);
    forall key, d1, d2, signature | cs.Accepts(key, d1, signature) && cs.Accepts(key, d2, signature)
      ensures d1 == d2
    {
      assert d1 == signature[|Framed(key)|..] == d2;
    }
    assert cs.Correct() && cs.Definite();
    assert cs.Binding() && cs.CollisionFree();
  }
}
