/** The part of the snarkvm library the agent relies on, seen from outside.

    Cryptographic objects (field elements, keys, addresses, ciphertexts,
    encrypted records) are abstract types: the model never looks inside them.
    The operations on them are the fields of capability records (FieldOps,
    KeyOps, RecordOps) that every modelled operation takes as a parameter,
    so each proof holds for every implementation of those operations, or for
    every implementation satisfying the laws a lemma states as its
    precondition.  Plaintext values, records' data, blocks and transitions
    are structured, because the agent inspects them. */
module Snarkvm {
  import opened Wrappers
  import opened Lib

  /** An element of the base field. */
  type Field(==, !new)
  /** A symmetric ciphertext (`Ciphertext`). */
  type Ciphertext(==, !new)
  type PrivateKey(==, !new)
  type ViewKey(==, !new)
  type Address(==, !new)
  /** A record as it appears on chain, encrypted to its owner. */
  type CiphertextRecord(==, !new)
  type TransitionId(==, !new)
  /** The state of a seeded or entropy-seeded ChaCha random generator. */
  type Rng(!new)

  /** Identifiers and program ids, in their canonical text form. */
  type Identifier = string
  type ProgramId = string

  datatype Literal =
    | FieldLiteral(field: Field)
    | U64Literal(u: u64)
    | AddressLiteral(address: Address)
    | OtherLiteral(text: string)

  /** A plaintext value: a literal, or a struct whose members keep their
      insertion order (an `IndexMap` in the source). */
  datatype Plaintext = LiteralValue(literal: Literal) | Struct(members: seq<Member>)
  datatype Member = Member(name: Identifier, value: Plaintext)

  /** A record entry is tagged with its visibility. */
  datatype Entry = Constant(plaintext: Plaintext) | Public(plaintext: Plaintext) | Private(plaintext: Plaintext)
  datatype RecordEntry = RecordEntry(name: Identifier, entry: Entry)

  /** A decrypted record: its owner and its named data entries. */
  datatype PlaintextRecord = PlaintextRecord(owner: Address, data: seq<RecordEntry>, nonce: Field)

  /** A program input: a record or a plaintext value. */
  datatype Value = RecordValue(record: PlaintextRecord) | PlaintextValue(plaintext: Plaintext)

  /** A transition of some program and the records it outputs, each with its commitment. */
  datatype Transition = Transition(programId: ProgramId, records: seq<(Field, CiphertextRecord)>)
  datatype Block = Block(transitions: seq<Transition>)

  const NOT_A_STRUCT: string := "plaintext is not a struct"
  const MEMBER_NOT_FOUND: string := "member not found"

  /** `Plaintext::find` with a one-identifier path: the struct member called `id`. */
  function FindMember(p: Plaintext, id: Identifier): (r: Result<Plaintext>)
    ensures r.Ok? <==> p.Struct? && exists i :: 0 <= i < |p.members| && p.members[i].name == id
    ensures r.Ok? ==> exists i :: 0 <= i < |p.members| && p.members[i] == Member(id, r.value)
  {
    match p
    case LiteralValue(_) => Err(NOT_A_STRUCT)
    case Struct(members) => FindIn(members, id)
  }

  function FindIn(members: seq<Member>, id: Identifier): (r: Result<Plaintext>)
    ensures r.Ok? <==> exists i :: 0 <= i < |members| && members[i].name == id
    ensures r.Ok? ==> exists i :: 0 <= i < |members| && members[i] == Member(id, r.value)
  {
    if members == [] then Err(MEMBER_NOT_FOUND)
    else if members[0].name == id then Ok(members[0].value)
    else
      var r := FindIn(members[1..], id);
      assert r.Ok? ==> exists i :: 0 <= i < |members[1..]| && members[1..][i] == Member(id, r.value);
      r
  }

  /** `Record::find` with a one-identifier path: the data entry called `id`. */
  function FindEntry(r: PlaintextRecord, id: Identifier): (e: Result<Entry>)
    ensures e.Ok? <==> exists i :: 0 <= i < |r.data| && r.data[i].name == id
    ensures e.Ok? ==> exists i :: 0 <= i < |r.data| && r.data[i] == RecordEntry(id, e.value)
  {
    FindEntryIn(r.data, id)
  }

  function FindEntryIn(data: seq<RecordEntry>, id: Identifier): (e: Result<Entry>)
    ensures e.Ok? <==> exists i :: 0 <= i < |data| && data[i].name == id
    ensures e.Ok? ==> exists i :: 0 <= i < |data| && data[i] == RecordEntry(id, e.value)
  {
    if data == [] then Err(MEMBER_NOT_FOUND)
    else if data[0].name == id then Ok(data[0].entry)
    else
      var e := FindEntryIn(data[1..], id);
      assert e.Ok? ==> exists i :: 0 <= i < |data[1..]| && data[1..][i] == RecordEntry(id, e.value);
      e
  }

  /** `Block::into_records`: the records of every transition, in order. */
  function BlockRecords(b: Block): seq<(Field, CiphertextRecord)> {
    TransitionRecords(b.transitions)
  }

  function TransitionRecords(ts: seq<Transition>): seq<(Field, CiphertextRecord)> {
    if ts == [] then [] else ts[0].records + TransitionRecords(ts[1..])
  }

  /** `blocks.into_iter().flat_map(|block| block.into_records())`. */
  function BlocksRecords(bs: seq<Block>): seq<(Field, CiphertextRecord)> {
    if bs == [] then [] else BlockRecords(bs[0]) + BlocksRecords(bs[1..])
  }

  /** `blocks.into_iter().flat_map(|block| block.into_transitions())`. */
  function BlocksTransitions(bs: seq<Block>): seq<Transition> {
    if bs == [] then [] else bs[0].transitions + BlocksTransitions(bs[1..])
  }

  /** Field arithmetic, hashing and symmetric encryption. */
  datatype FieldOps = FieldOps(
    zero: Field,
    mul: (Field, Field) -> Field,
    div: (Field, Field) -> Field,
    /** `Field::new_domain_separator` */
    domainSeparator: string -> Field,
    /** `hash_psd2` over a slice of field elements */
    hashPsd2: seq<Field> -> Result<Field>,
    /** `Plaintext::encrypt_symmetric` under a field key */
    encryptSymmetric: (Plaintext, Field) -> Result<Ciphertext>,
    /** `Ciphertext::decrypt_symmetric` under a field key */
    decryptSymmetric: (Ciphertext, Field) -> Result<Plaintext>)

  /** Dividing by a non-zero blinding factor undoes multiplying by it. */
  ghost predicate DivisionCancels(c: FieldOps) {
    forall b, f :: b != c.zero ==> c.div(c.mul(b, f), b) == f
  }

  /** Symmetric decryption under the key used to encrypt gives the plaintext back. */
  ghost predicate SymmetricRoundTrip(c: FieldOps) {
    forall p, k :: c.encryptSymmetric(p, k).Ok? ==> c.decryptSymmetric(c.encryptSymmetric(p, k).value, k) == Ok(p)
  }

  /** Key generation and derivation. */
  datatype KeyOps = KeyOps(
    /** `ChaChaRng::seed_from_u64` */
    seedRng: u64 -> Rng,
    /** `PrivateKey::new(&mut rng)` */
    newPrivateKey: Rng -> Result<PrivateKey>,
    /** `PrivateKey::from_str` */
    parsePrivateKey: string -> Result<PrivateKey>,
    /** `PrivateKey::try_from(seed)` */
    privateKeyFromSeed: Field -> Result<PrivateKey>,
    /** `PrivateKey::seed` */
    seedOf: PrivateKey -> Field,
    /** `ViewKey::try_from(&private_key)` */
    viewKeyOf: PrivateKey -> Result<ViewKey>,
    /** `Address::try_from(&private_key)` */
    addressOf: PrivateKey -> Result<Address>)

  /** A private key is recovered from its own seed. */
  ghost predicate SeedRecoversKey(k: KeyOps, pk: PrivateKey) {
    k.privateKeyFromSeed(k.seedOf(pk)) == Ok(pk)
  }

  /** What the scanners ask of records. */
  datatype RecordOps = RecordOps(
    /** `Address::to_x_coordinate` */
    xCoordinate: Address -> Field,
    /** `ViewKey::to_address` */
    addressOfViewKey: ViewKey -> Address,
    /** `is_owner_with_address_x_coordinate`: the cheap ownership test */
    isOwner: (CiphertextRecord, ViewKey, Field) -> bool,
    /** `Record::serial_number(private_key, commitment)` */
    serialNumber: (PrivateKey, Field) -> Result<Field>,
    /** `CiphertextRecord::decrypt(view_key)` */
    decrypt: (CiphertextRecord, ViewKey) -> Result<PlaintextRecord>,
    /** `Display` of a field element */
    fieldDisplay: Field -> string)

  /** The text form of an address and the parser of values. */
  datatype TextOps = TextOps(
    /** `Address::to_string` */
    addressText: Address -> string,
    /** `Value::from_str` */
    parseValue: string -> Result<Value>)

  /** An address's text parses back to that address, as a plaintext value. */
  ghost predicate AddressTextRoundTrip(t: TextOps) {
    forall a :: t.parseValue(t.addressText(a)) == Ok(PlaintextValue(LiteralValue(AddressLiteral(a))))
  }
}
