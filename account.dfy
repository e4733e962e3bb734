/** Accounts (account.rs): a private key with the view key and address derived
    from it, the constructors that derive them, and the password backup of
    the private key's seed, a field element blinded by a hash of the domain,
    a nonce and the secret and then encrypted symmetrically under the secret. */
module Accounts {
  import opened Wrappers
  import opened Lib
  import opened Snarkvm

  datatype Account = Account(privateKey: PrivateKey, viewKey: ViewKey, address: Address)

  /** The account invariant: its view key and address are the ones its private key derives. */
  predicate Derived(k: KeyOps, a: Account) {
    k.viewKeyOf(a.privateKey) == Ok(a.viewKey) && k.addressOf(a.privateKey) == Ok(a.address)
  }

  /** The view key and address of a private key, as every constructor derives them. */
  function AccountOf(k: KeyOps, pk: PrivateKey): (r: Result<Account>)
    ensures r.Ok? <==> k.viewKeyOf(pk).Ok? && k.addressOf(pk).Ok?
    ensures r.Ok? ==> r.value.privateKey == pk && Derived(k, r.value)
  {
    var viewKey :- k.viewKeyOf(pk);
    var address :- k.addressOf(pk);
    Ok(Account(pk, viewKey, address))
  }

  /** A derived account is determined by its private key. */
  lemma DerivedIsAccountOf(k: KeyOps, a: Account)
    requires Derived(k, a)
    ensures AccountOf(k, a.privateKey) == Ok(a)
  {
  }

  /** `generate_keypair` with the random generator as a parameter. */
  function GenerateKeypair(k: KeyOps, rng: Rng): (r: Result<Account>)
    ensures r.Ok? ==> Derived(k, r.value) && k.newPrivateKey(rng) == Ok(r.value.privateKey)
    ensures k.newPrivateKey(rng).Err? ==> r == Err(k.newPrivateKey(rng).msg)
  {
    var pk :- k.newPrivateKey(rng);
    AccountOf(k, pk)
  }

  /** `generate_keypair_from_seed`: the generator is ChaCha seeded with `seed`. */
  function GenerateKeypairFromSeed(k: KeyOps, seed: u64): (r: Result<Account>)
    ensures r.Ok? ==> Derived(k, r.value) && k.newPrivateKey(k.seedRng(seed)) == Ok(r.value.privateKey)
  {
    GenerateKeypair(k, k.seedRng(seed))
  }

  /** `Account::new`, the entropy-seeded generator being a parameter. */
  function New(k: KeyOps, entropy: Rng): (r: Result<Account>)
    ensures r.Ok? ==> Derived(k, r.value) && k.newPrivateKey(entropy) == Ok(r.value.privateKey)
  {
    GenerateKeypair(k, entropy)
  }

  /** `Account::from_seed`: deterministic in the seed; its private key is the
      one `PrivateKey::new` draws from ChaCha seeded with it. */
  function FromSeed(k: KeyOps, seed: u64): (r: Result<Account>)
    ensures r.Ok? ==> Derived(k, r.value) && k.newPrivateKey(k.seedRng(seed)) == Ok(r.value.privateKey)
    ensures r.Ok? <==> (k.newPrivateKey(k.seedRng(seed)).Ok?
                        && AccountOf(k, k.newPrivateKey(k.seedRng(seed)).value).Ok?)
  {
    GenerateKeypairFromSeed(k, seed)
  }

  /** Two accounts from the same seed are the same account. */
  lemma FromSeedDeterministic(k: KeyOps, s1: u64, s2: u64)
    requires FromSeed(k, s1).Ok? && s1 == s2
    ensures FromSeed(k, s2) == FromSeed(k, s1)
    ensures FromSeed(k, s1) == AccountOf(k, k.newPrivateKey(k.seedRng(s1)).value)
  {
  }

  /** `Account::from_private_key`: the key text is parsed, then view key and address derived. */
  function FromPrivateKey(k: KeyOps, key: string): (r: Result<Account>)
    ensures r.Ok? ==> Derived(k, r.value) && k.parsePrivateKey(key) == Ok(r.value.privateKey)
    ensures k.parsePrivateKey(key).Err? ==> r == Err(k.parsePrivateKey(key).msg)
  {
    var pk :- k.parsePrivateKey(key);
    AccountOf(k, pk)
  }

  /** `Account::default`: the account of seed 0; the source unwraps its
      construction, so it exists only when that succeeds. */
  function Default(k: KeyOps): (a: Account)
    requires FromSeed(k, 0).Ok?
    ensures Derived(k, a) && FromSeed(k, 0) == Ok(a)
  {
    FromSeed(k, 0).value
  }

  /* ---------- key backup ---------- */

  /** The domain under which a private key's seed is backed up. */
  const KEY_DOMAIN: string := "private_key"
  const EXPECTED_LITERAL: string := "Expected literal"
  const WRONG_LITERAL_TYPE: string := "Wrong literal type"

  /** The blinding factor, computed alike on both sides:
      `hash_psd2([sep(domain), nonce, sep(secret)])`. */
  function Blinding(c: FieldOps, domain: string, nonce: Field, secret: string): Result<Field> {
    c.hashPsd2([c.domainSeparator(domain), nonce, c.domainSeparator(secret)])
  }

  /** The struct that is encrypted: `key` then `nonce`, both field literals. */
  function BackupPlaintext(key: Field, nonce: Field): Plaintext {
    Struct([Member("key", LiteralValue(FieldLiteral(key))), Member("nonce", LiteralValue(FieldLiteral(nonce)))])
  }

  /** `encrypt_field`, with the nonce as a parameter. */
  function EncryptField(c: FieldOps, field: Field, secret: string, domain: string, nonce: Field): (r: Result<Ciphertext>)
    ensures Blinding(c, domain, nonce, secret).Err? ==> r == Err(Blinding(c, domain, nonce, secret).msg)
    ensures Blinding(c, domain, nonce, secret).Ok? ==>
              r == c.encryptSymmetric(BackupPlaintext(c.mul(Blinding(c, domain, nonce, secret).value, field), nonce),
                                      c.domainSeparator(secret))
  {
    var blinding :- Blinding(c, domain, nonce, secret);
    c.encryptSymmetric(BackupPlaintext(c.mul(blinding, field), nonce), c.domainSeparator(secret))
  }

  /** `extract_value`: the field element in the member `id` of a struct. */
  function ExtractValue(p: Plaintext, id: Identifier): (r: Result<Field>)
    ensures r.Ok? <==> (FindMember(p, id).Ok? && FindMember(p, id).value.LiteralValue?
                        && FindMember(p, id).value.literal.FieldLiteral?)
    ensures r.Ok? ==> FindMember(p, id) == Ok(LiteralValue(FieldLiteral(r.value)))
    ensures FindMember(p, id).Err? ==> r == Err(FindMember(p, id).msg)
    ensures FindMember(p, id).Ok? && !FindMember(p, id).value.LiteralValue? ==> r == Err(EXPECTED_LITERAL)
    ensures (FindMember(p, id).Ok? && FindMember(p, id).value.LiteralValue?
             && !FindMember(p, id).value.literal.FieldLiteral?) ==> r == Err(WRONG_LITERAL_TYPE)
  {
    var value :- FindMember(p, id);
    match value
    case LiteralValue(literal) =>
      (match literal
       case FieldLiteral(f) => Ok(f)
       case _ => Err(WRONG_LITERAL_TYPE))
    case _ => Err(EXPECTED_LITERAL)
  }

  /** `decrypt_field`: decrypt under the secret, read `key` and `nonce`,
      recompute the blinding and divide it out. */
  function DecryptField(c: FieldOps, ciphertext: Ciphertext, secret: string, domain: string): Result<Field> {
    var decrypted :- c.decryptSymmetric(ciphertext, c.domainSeparator(secret));
    var key :- ExtractValue(decrypted, "key");
    var nonce :- ExtractValue(decrypted, "nonce");
    var blinding :- Blinding(c, domain, nonce, secret);
    Ok(c.div(key, blinding))
  }

  /** The backup struct has exactly the two members, and each reads back. */
  lemma BackupPlaintextReadsBack(key: Field, nonce: Field)
    ensures |BackupPlaintext(key, nonce).members| == 2
    ensures ExtractValue(BackupPlaintext(key, nonce), "key") == Ok(key)
    ensures ExtractValue(BackupPlaintext(key, nonce), "nonce") == Ok(nonce)
    ensures forall id :: id != "key" && id != "nonce" ==> ExtractValue(BackupPlaintext(key, nonce), id).Err?
  {
    var p := BackupPlaintext(key, nonce);
    assert p.members[0] == Member("key", LiteralValue(FieldLiteral(key)));
    assert p.members[1] == Member("nonce", LiteralValue(FieldLiteral(nonce)));
  }

  /** Decrypting a backup with the same secret and domain gives the field
      back, when symmetric decryption undoes encryption and the blinding is
      not zero. */
  lemma FieldRoundTrip(c: FieldOps, field: Field, secret: string, domain: string, nonce: Field)
    requires DivisionCancels(c) && SymmetricRoundTrip(c)
    requires EncryptField(c, field, secret, domain, nonce).Ok?
    requires Blinding(c, domain, nonce, secret).value != c.zero
    ensures DecryptField(c, EncryptField(c, field, secret, domain, nonce).value, secret, domain) == Ok(field)
  {
    var blinding := Blinding(c, domain, nonce, secret).value;
    var p := BackupPlaintext(c.mul(blinding, field), nonce);
    var ct := EncryptField(c, field, secret, domain, nonce).value;
    assert c.decryptSymmetric(ct, c.domainSeparator(secret)) == Ok(p);
    BackupPlaintextReadsBack(c.mul(blinding, field), nonce);
    assert c.div(c.mul(blinding, field), blinding) == field;
  }

  /** `get_encrypted_key`: back up the private key's seed under the fixed domain. */
  function GetEncryptedKey(c: FieldOps, k: KeyOps, a: Account, secret: string, nonce: Field): Result<Ciphertext> {
    EncryptField(c, k.seedOf(a.privateKey), secret, KEY_DOMAIN, nonce)
  }

  /** `from_encrypted_key`: recover the seed under the fixed domain, then rebuild the account. */
  function FromEncryptedKey(c: FieldOps, k: KeyOps, ciphertext: Ciphertext, secret: string): (r: Result<Account>)
    ensures r.Ok? ==> Derived(k, r.value)
    ensures r.Ok? ==> DecryptField(c, ciphertext, secret, KEY_DOMAIN).Ok?
                      && k.privateKeyFromSeed(DecryptField(c, ciphertext, secret, KEY_DOMAIN).value) == Ok(r.value.privateKey)
  {
    var seed :- DecryptField(c, ciphertext, secret, KEY_DOMAIN);
    var pk :- k.privateKeyFromSeed(seed);
    AccountOf(k, pk)
  }

  /** A backed-up account is recovered whole with the same secret, when a
      private key is recovered from its own seed. */
  lemma KeyBackupRoundTrip(c: FieldOps, k: KeyOps, a: Account, secret: string, nonce: Field)
    requires DivisionCancels(c) && SymmetricRoundTrip(c)
    requires Derived(k, a) && SeedRecoversKey(k, a.privateKey)
    requires GetEncryptedKey(c, k, a, secret, nonce).Ok?
    requires Blinding(c, KEY_DOMAIN, nonce, secret).value != c.zero
    ensures FromEncryptedKey(c, k, GetEncryptedKey(c, k, a, secret, nonce).value, secret) == Ok(a)
  {
    FieldRoundTrip(c, k.seedOf(a.privateKey), secret, KEY_DOMAIN, nonce);
    DerivedIsAccountOf(k, a);
  }
}
