/** Payload encryption at rest. The AEAD is ideal: a ciphertext remembers the key, nonce,
    plaintext and associated data it was sealed with, and opens under exactly those. */
module Keyring {
  import opened Base
  import opened Text

  type Key = string

  datatype Ciphertext = Sealed(key: Key, nonce: string, plaintext: string, aad: string)

  datatype Keyring = Keyring(activeId: string, aeads: map<string, Key>)

  datatype KeyringError = UnknownKeyId | PayloadAuth

  datatype Payload = Payload(keyId: string, nonce: string, ciphertext: Ciphertext)

  const NONCE_SIZE: nat := 12

  function Encrypt(kr: Keyring, nonce: string, plaintext: string, aad: string): Result<Payload, KeyringError> {
    if kr.activeId !in kr.aeads then Err(UnknownKeyId)
    else Ok(Payload(kr.activeId, nonce, Sealed(kr.aeads[kr.activeId], nonce, plaintext, aad)))
  }

  function Decrypt(kr: Keyring, keyId: string, nonce: string, ciphertext: Ciphertext, aad: string): Result<string,
      KeyringError> {
    if keyId !in kr.aeads then Err(UnknownKeyId)
    else if |nonce| != NONCE_SIZE then Err(PayloadAuth)
    else if ciphertext.key == kr.aeads[keyId] && ciphertext.nonce == nonce && ciphertext.aad == aad
    then Ok(ciphertext.plaintext)
    else Err(PayloadAuth)
  }

  /** A payload sealed by one keyring opens under another exactly when the other holds the sealing key under the same
      id, and only with the associated data it was sealed with. */
  lemma RotationRoundTrip(sealer: Keyring, opener: Keyring, nonce: string, plaintext: string, aad: string, aad': string)
    requires |nonce| == NONCE_SIZE && sealer.activeId in sealer.aeads
    ensures var p := Encrypt(sealer, nonce, plaintext, aad).value;
            Decrypt(opener, p.keyId, p.nonce, p.ciphertext, aad') ==
            if sealer.activeId !in opener.aeads then Err(UnknownKeyId)
            else if opener.aeads[sealer.activeId] == sealer.aeads[sealer.activeId] && aad' == aad then Ok(plaintext)
            else Err(PayloadAuth)
  {
  }

  // ---- the spec -------------------------------------------------------------------------

  const KEY_SIZE: nat := 32

  datatype SpecError = EmptyKeyring | BadEntry | BadKeySize | DuplicateKeyId

  /** The base64 alphabets, in the order they are tried. */
  type Decoders = seq<string -> Option<Key>>

  function DecodeKey(decoders: Decoders, encoded: string): Result<Key, SpecError> {
    if decoders == [] then Err(BadEntry)
    else
      var key := decoders[0](encoded);
      if key.None? then DecodeKey(decoders[1..], encoded)
      else if |key.value| != KEY_SIZE then Err(BadKeySize)
      else Ok(key.value)
  }

  /** "<id>:<key>", with spaces allowed around either. */
  function ParseEntry(decoders: Decoders, entry: string): Result<(string, Key), SpecError> {
    var cut := Cut(TrimSpace(entry), ':');
    if cut.None? || TrimSpace(cut.value.0) == "" || TrimSpace(cut.value.1) == "" then Err(BadEntry)
    else
      var key := DecodeKey(decoders, TrimSpace(cut.value.1));
      if key.Err? then Err(key.error) else Ok((TrimSpace(cut.value.0), key.value))
  }

  /** What the first alphabet that accepts the text makes of it. */
  ghost predicate Decodes(decoders: Decoders, encoded: string, key: Option<Key>) {
    if key.None? then forall k :: 0 <= k < |decoders| ==> decoders[k](encoded).None?
    else exists k :: && 0 <= k < |decoders| && decoders[k](encoded) == key
                     && forall i :: 0 <= i < k ==> decoders[i](encoded).None?
  }

  lemma {:induction false} DecodeKeyIs(decoders: Decoders, encoded: string, key: Option<Key>)
    requires Decodes(decoders, encoded, key)
    ensures DecodeKey(decoders, encoded) ==
            if key.None? then Err(BadEntry) else if |key.value| == 32 then Ok(key.value) else Err(BadKeySize)
  {
    if decoders != [] && decoders[0](encoded).None? {
      if key.Some? {
        var k :| && 0 <= k < |decoders| && decoders[k](encoded) == key
                 && forall i :: 0 <= i < k ==> decoders[i](encoded).None?;
        assert decoders[1..][k - 1](encoded) == key;
        assert forall i :: 0 <= i < k - 1 ==> decoders[1..][i](encoded) == decoders[i + 1](encoded);
      }
      DecodeKeyIs(decoders[1..], encoded, key);
    }
  }

  /** "<id>:<key>" lists the key under the id, whatever space there is around either: the text before the first colon
      is the id, the text after it the key, in the first alphabet that accepts it, which must make 32 bytes. */
  lemma EntryIs(decoders: Decoders, left: string, right: string, id: string, encoded: string, key: Option<Key>)
    requires ':' !in left && Padded(left, id) && Padded(right, encoded) && Decodes(decoders, encoded, key)
    ensures ParseEntry(decoders, left + ":" + right) ==
            if id == "" || encoded == "" || key.None? then Err(BadEntry)
            else if |key.value| == 32 then Ok((id, key.value))
            else Err(BadKeySize)
  {
    TrimSpaceIs(left, id);
    TrimSpaceIs(right, encoded);
    TrimAround(left, ':', right);
    assert left + ":" + right == left + [':'] + right;
    var p := TrimLeftSplits(left);
    CutJoins(TrimLeft(left), ':', TrimRight(right));
    TrimTwice(left);
    TrimTwice(right);
    DecodeKeyIs(decoders, encoded, key);
  }

  /** And an entry without a colon lists nothing. */
  lemma ColonlessIsBad(decoders: Decoders, entry: string)
    requires ':' !in entry
    ensures ParseEntry(decoders, entry) == Err(BadEntry)
  {
    var p := TrimLeftSplits(entry);
    var q := TrimRightSplits(TrimLeft(entry));
  }

  type Parsed = Result<(string, Key), SpecError>

  function ParseAll(decoders: Decoders, entries: seq<string>): (ps: seq<Parsed>)
    ensures |ps| == |entries|
  {
    seq(|entries|, i requires 0 <= i < |entries| => ParseEntry(decoders, entries[i]))
  }

  predicate WellFormed(ps: seq<Parsed>) {
    && (forall i :: 0 <= i < |ps| ==> ps[i].Ok?)
    && (forall i, j :: 0 <= i < j < |ps| && ps[i].Ok? && ps[j].Ok? ==> ps[i].value.0 != ps[j].value.0)
  }

  /** A table holds exactly the keys the entries list. */
  predicate Lists(ps: seq<Parsed>, aeads: map<string, Key>) {
    && WellFormed(ps)
    && (forall i :: 0 <= i < |ps| ==> ps[i].value.0 in aeads && aeads[ps[i].value.0] == ps[i].value.1)
    && (forall id :: id in aeads ==> exists i :: 0 <= i < |ps| && ps[i].value.0 == id)
  }

  predicate Describes(ps: seq<Parsed>, kr: Keyring) {
    Lists(ps, kr.aeads) && |ps| > 0 && kr.activeId == ps[0].value.0
  }

  /** What stops the parse at an entry when the entries before it are fine. */
  predicate Rejects(before: seq<Parsed>, p: Parsed, error: SpecError) {
    && WellFormed(before)
    && (if p.Err? then error == p.error
        else error == DuplicateKeyId && exists i :: 0 <= i < |before| && before[i].value.0 == p.value.0)
  }

  predicate Refused(ps: seq<Parsed>, error: SpecError) {
    exists i :: 0 <= i < |ps| && Rejects(ps[..i], ps[i], error)
  }

  /** The first entry encrypts, every entry decrypts, and any fault anywhere in the spec refuses the whole of it. */
  method ParseKeyring(decoders: Decoders, spec: string) returns (r: Result<Keyring, SpecError>)
    ensures r.Ok? <==> TrimSpace(spec) != "" && WellFormed(ParseAll(decoders, Entries(TrimSpace(spec))))
    ensures r.Ok? ==> Describes(ParseAll(decoders, Entries(TrimSpace(spec))), r.value)
    ensures r.Err? ==> if TrimSpace(spec) == "" then r.error == EmptyKeyring
                       else Refused(ParseAll(decoders, Entries(TrimSpace(spec))), r.error)
  {
    var trimmed := TrimSpace(spec);
    if trimmed == "" {
      return Err(EmptyKeyring);
    }
    var ps := ParseAll(decoders, Entries(trimmed));
    forall i | 0 <= i < |ps| && ps[i].Ok? ensures ps[i].value.0 != "" {
      IdIsNotEmpty(decoders, Entries(trimmed)[i]);
    }
    r := Collect(ps);
  }

  /** The loop over the entries, each parsed when its turn comes. */
  method Collect(ps: seq<Parsed>) returns (r: Result<Keyring, SpecError>)
    requires |ps| > 0 && forall i :: 0 <= i < |ps| && ps[i].Ok? ==> ps[i].value.0 != ""
    ensures r.Ok? <==> WellFormed(ps)
    ensures r.Ok? ==> Describes(ps, r.value)
    ensures r.Err? ==> Refused(ps, r.error)
  {
    var kr := Keyring("", map[]);
    var i := 0;
    while i < |ps|
      invariant 0 <= i <= |ps|
      invariant Lists(ps[..i], kr.aeads)
      invariant kr.activeId == "" <==> i == 0
      invariant i > 0 ==> kr.activeId == ps[0].value.0
    {
      var e := ps[i];
      if e.Err? {
        BadEntryRefuses(ps, i, kr.aeads);
        return Err(e.error);
      }
      var id, key := e.value.0, e.value.1;
      if id in kr.aeads {
        Duplicates(ps, i, kr.aeads);
        return Err(DuplicateKeyId);
      }
      ListsOneMore(ps[..i], e, kr.aeads);
      assert ps[..i + 1] == ps[..i] + [e];
      kr := Keyring(if kr.activeId == "" then id else kr.activeId, kr.aeads[id := key]);
      i := i + 1;
    }
    assert ps[..i] == ps;
    return Ok(kr);
  }

  lemma IdIsNotEmpty(decoders: Decoders, entry: string)
    requires ParseEntry(decoders, entry).Ok?
    ensures ParseEntry(decoders, entry).value.0 != ""
  {
  }

  lemma Duplicates(ps: seq<Parsed>, i: nat, aeads: map<string, Key>)
    requires i < |ps| && Lists(ps[..i], aeads) && ps[i].Ok? && ps[i].value.0 in aeads
    ensures Refused(ps, DuplicateKeyId) && !WellFormed(ps)
  {
    var j :| 0 <= j < i && ps[..i][j].value.0 == ps[i].value.0;
    assert ps[j].value.0 == ps[i].value.0;
    assert Rejects(ps[..i], ps[i], DuplicateKeyId);
  }

  lemma BadEntryRefuses(ps: seq<Parsed>, i: nat, aeads: map<string, Key>)
    requires i < |ps| && Lists(ps[..i], aeads) && ps[i].Err?
    ensures Refused(ps, ps[i].error) && !WellFormed(ps)
  {
    assert Rejects(ps[..i], ps[i], ps[i].error);
  }

  lemma ListsOneMore(ps: seq<Parsed>, p: Parsed, aeads: map<string, Key>)
    requires Lists(ps, aeads) && p.Ok? && p.value.0 !in aeads
    ensures Lists(ps + [p], aeads[p.value.0 := p.value.1])
  {
    var more, aeads' := ps + [p], aeads[p.value.0 := p.value.1];
    forall id | id in aeads' ensures exists i :: 0 <= i < |more| && more[i].value.0 == id {
      if id in aeads {
        var i :| 0 <= i < |ps| && ps[i].value.0 == id;
        assert more[i] == ps[i];
      } else {
        assert more[|ps|] == p;
      }
    }
  }

  /** "<new entry>,<old spec>" lists the new entry and then the old ones. */
  lemma SpecPrepends(decoders: Decoders, added: string, spec: string)
    requires ',' !in added
    ensures ParseAll(decoders, Entries(added + "," + spec)) == [ParseEntry(decoders, added)]
            + ParseAll(decoders, Entries(spec))
  {
    EntriesPrepend(added, spec);
    ParsePrepend(decoders, added, Entries(spec));
  }

  lemma EntriesPrepend(added: string, spec: string)
    requires ',' !in added
    ensures Entries(added + "," + spec) == [added] + Entries(spec)
  {
    CutJoins(added, ',', spec);
    assert added + [','] + spec == added + "," + spec;
  }

  lemma ParsePrepend(decoders: Decoders, added: string, entries: seq<string>)
    ensures ParseAll(decoders, [added] + entries) == [ParseEntry(decoders, added)] + ParseAll(decoders, entries)
  {
  }

  /** Putting a new key in front of the spec: the new keyring seals with it and still opens everything the old one
      sealed; an instance still on the old spec cannot open what the new one seals. */
  lemma RotatedSpecOverlaps(p: Parsed, ps: seq<Parsed>, kr: Keyring, kr': Keyring, nonce: string, plaintext: string,
      aad: string)
    requires Describes(ps, kr) && Describes([p] + ps, kr') && |nonce| == NONCE_SIZE
    ensures p.Ok? && kr'.activeId == p.value.0
    ensures var old', new' := Encrypt(kr, nonce, plaintext, aad), Encrypt(kr', nonce, plaintext, aad);
            && old'.Ok? && Decrypt(kr', old'.value.keyId, nonce, old'.value.ciphertext, aad) == Ok(plaintext)
            && new'.Ok? && Decrypt(kr', new'.value.keyId, nonce, new'.value.ciphertext, aad) == Ok(plaintext)
            && Decrypt(kr, new'.value.keyId, nonce, new'.value.ciphertext, aad) == Err(UnknownKeyId)
  {
    KeyPrepended(p, ps, kr, kr');
    RotationRoundTrip(kr, kr', nonce, plaintext, aad, aad);
    RotationRoundTrip(kr', kr', nonce, plaintext, aad, aad);
    RotationRoundTrip(kr', kr, nonce, plaintext, aad, aad);
  }

  lemma KeyPrepended(p: Parsed, ps: seq<Parsed>, kr: Keyring, kr': Keyring)
    requires Describes(ps, kr) && Describes([p] + ps, kr')
    ensures p.Ok? && kr'.activeId == p.value.0
    ensures kr.activeId in kr.aeads && kr'.activeId in kr'.aeads && kr'.activeId !in kr.aeads
    ensures kr.activeId in kr'.aeads && kr'.aeads[kr.activeId] == kr.aeads[kr.activeId]
  {
    var b := [p] + ps;
    assert b[0] == p && b[1] == ps[0];
    forall id | id in kr.aeads ensures id != p.value.0 {
      var i :| 0 <= i < |ps| && ps[i].value.0 == id;
      assert b[i + 1] == ps[i];
    }
  }
}
