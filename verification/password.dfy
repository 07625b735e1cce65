/** The self-describing password-hash record:
      scrypt:1:<cost>:<blockSize>:<parallelization>:<keyLength>:<saltBase64>:<hashBase64>
    built by `hashPassword`, checked by `verifyPassword`, and compared with
    the configured parameters by `needsRehash`.

    The three foreign primitives are parameters: the scrypt key derivation
    function of RFC 7914 (`Kdf`, `None` when node's scrypt rejects its
    parameters), base64 of RFC 4648 section 4 (`Base64`, any codec that
    decodes what it encodes and never emits a colon), and the random salt. */
module Password {
  import opened Wrappers
  import opened JsText

  newtype byte = b: int | 0 <= b < 256
  type Bytes = seq<byte>

  const HashIdentifier: string := "scrypt"
  const HashVersion: string := "1"

  const DefaultCost := 16384
  const DefaultBlockSize := 8
  const DefaultParallelization := 1
  const DefaultKeyLength := 64
  const DefaultSaltLength := 16

  /** Fully resolved hashing parameters (`PasswordHashOptions`). */
  datatype HashOptions = HashOptions(cost: int, blockSize: int, parallelization: int, keyLength: int, saltLength: int)

  /** `Partial<PasswordHashOptions>`: `None` marks a field the caller left out. */
  datatype PartialOptions = PartialOptions(
    cost: Option<int>, blockSize: Option<int>, parallelization: Option<int>,
    keyLength: Option<int>, saltLength: Option<int>)

  const DefaultOptions := HashOptions(DefaultCost, DefaultBlockSize, DefaultParallelization, DefaultKeyLength, DefaultSaltLength)
  const NoOptions := PartialOptions(None, None, None, None, None)

  /** The decoded fields of a record (`PasswordHashComponents`). */
  datatype HashComponents = HashComponents(
    algorithm: string, version: string,
    cost: int, blockSize: int, parallelization: int, keyLength: int,
    salt: Bytes, hash: Bytes)

  /** `encodeHash` takes the salt and the hash either as a buffer or as text that is already base64. */
  datatype BufferOrString = Buffer(bytes: Bytes) | Text(text: string)

  datatype RecordInput = RecordInput(
    algorithm: string, version: string,
    cost: int, blockSize: int, parallelization: int, keyLength: int,
    salt: BufferOrString, hash: BufferOrString)

  /** The parameters passed to scrypt: key length, N, r, p and the memory ceiling. */
  datatype ScryptParams = ScryptParams(keyLength: int, cost: int, blockSize: int, parallelization: int, maxmem: int)

  /** scrypt(password, salt, params); `None` when it throws. */
  type Kdf = (string, Bytes, ScryptParams) -> Option<Bytes>

  /** Whenever scrypt succeeds it returns exactly `keyLength` bytes. */
  ghost predicate ValidKdf(kdf: Kdf) {
    forall password, salt, params :: kdf(password, salt, params).Some? ==> |kdf(password, salt, params).value| == params.keyLength
  }

  /** `buffer.toString("base64")` and `Buffer.from(text, "base64")`. */
  datatype Base64 = Base64(encode: Bytes -> string, decode: string -> Bytes)

  /** Decoding inverts encoding, the alphabet has no colon, and only the
      empty buffer encodes to the empty string. */
  ghost predicate ValidBase64(codec: Base64) {
    forall bytes ::
      && codec.decode(codec.encode(bytes)) == bytes
      && ':' !in codec.encode(bytes)
      && (codec.encode(bytes) == [] <==> bytes == [])
  }

  datatype PasswordError =
    | LegacyBcryptHash   // the explicit migration error of verifyPassword
    | KdfFailure         // scrypt rejected its parameters
    | RandomBytesFailure // randomBytes rejected a negative size

  /** `{ ...DEFAULT_OPTIONS, ...options }`: each given field overrides its default. */
  function ResolveOptions(o: PartialOptions): HashOptions {
    HashOptions(
      o.cost.GetOr(DefaultCost), o.blockSize.GetOr(DefaultBlockSize),
      o.parallelization.GetOr(DefaultParallelization), o.keyLength.GetOr(DefaultKeyLength),
      o.saltLength.GetOr(DefaultSaltLength))
  }

  /** Without options the defaults are 16384, 8, 1, 64 and 16; a given field wins over its default. */
  lemma ResolveOptionsFieldByField(o: PartialOptions)
    ensures ResolveOptions(NoOptions) == HashOptions(16384, 8, 1, 64, 16)
    ensures var r := ResolveOptions(o);
      && (r.cost == if o.cost.Some? then o.cost.value else 16384)
      && (r.blockSize == if o.blockSize.Some? then o.blockSize.value else 8)
      && (r.parallelization == if o.parallelization.Some? then o.parallelization.value else 1)
      && (r.keyLength == if o.keyLength.Some? then o.keyLength.value else 64)
      && (r.saltLength == if o.saltLength.Some? then o.saltLength.value else 16)
  {
  }

  /** The scrypt parameters for a cost, block size, parallelization and key
      length; the memory ceiling is cost * blockSize * 128 * 2 bytes. */
  function ScryptParamsFor(cost: int, blockSize: int, parallelization: int, keyLength: int): (p: ScryptParams)
    ensures p.keyLength == keyLength && p.cost == cost && p.blockSize == blockSize && p.parallelization == parallelization
    ensures p.maxmem == 256 * cost * blockSize
  {
    ScryptParams(keyLength, cost, blockSize, parallelization, cost * blockSize * 128 * 2)
  }

  function FieldText(f: BufferOrString, codec: Base64): string {
    match f
    case Buffer(bytes) => codec.encode(bytes)
    case Text(text) => text
  }

  /** The eight fields of a record, in order. */
  function RecordFields(c: RecordInput, codec: Base64): seq<string> {
    [c.algorithm, c.version,
     IntToString(c.cost), IntToString(c.blockSize), IntToString(c.parallelization), IntToString(c.keyLength),
     FieldText(c.salt, codec), FieldText(c.hash, codec)]
  }

  /** `encodeHash`: the fields joined by colons. When no field contains a
      colon, splitting the record at its colons gives the eight fields back. */
  function EncodeHash(c: RecordInput, codec: Base64): (r: string)
    ensures (forall i :: 0 <= i < 8 ==> ':' !in RecordFields(c, codec)[i]) ==> Split(r, ':') == RecordFields(c, codec)
  {
    var fields := RecordFields(c, codec);
    var r := Join(fields, ':');
    assert (forall i :: 0 <= i < 8 ==> ':' !in fields[i]) ==> Split(r, ':') == fields by {
      if forall i :: 0 <= i < 8 ==> ':' !in fields[i] {
        SplitJoin(fields, ':');
      }
    }
    r
  }

  /** The components as `encodeHash` receives them from `hashPassword`. */
  function AsBuffers(c: HashComponents): RecordInput {
    RecordInput(c.algorithm, c.version, c.cost, c.blockSize, c.parallelization, c.keyLength, Buffer(c.salt), Buffer(c.hash))
  }

  /** `decodeHash`: `None` stands for `null`. */
  function DecodeHash(s: string, codec: Base64): Option<HashComponents> {
    var parts := Split(s, ':');
    if |parts| != 8 then None
    else
      match (ParseInt(parts[2]), ParseInt(parts[3]), ParseInt(parts[4]), ParseInt(parts[5]))
      case (Some(cost), Some(blockSize), Some(parallelization), Some(keyLength)) =>
        if |parts[6]| == 0 || |parts[7]| == 0 then None
        else Some(HashComponents(parts[0], parts[1], cost, blockSize, parallelization, keyLength,
                                 codec.decode(parts[6]), codec.decode(parts[7])))
      case _ => None
  }

  /** A record decodes only if it holds exactly seven colons. */
  lemma DecodeNeedsSevenColons(s: string, codec: Base64)
    requires Count(s, ':') != 7
    ensures DecodeHash(s, codec) == None
  {
    SplitCount(s, ':');
  }

  /** With eight fields, decoding fails exactly when the salt or hash field
      is empty or one of the four numeric fields has no leading integer. */
  lemma DecodeRejectsBadFields(s: string, codec: Base64)
    requires |Split(s, ':')| == 8
    ensures var parts := Split(s, ':');
      DecodeHash(s, codec).None? <==>
        || parts[6] == [] || parts[7] == []
        || ParseInt(parts[2]).None? || ParseInt(parts[3]).None?
        || ParseInt(parts[4]).None? || ParseInt(parts[5]).None?
  {
  }

  /** Decoding reads back what encoding wrote, for algorithm and version
      strings without a colon, any integer parameters and non-empty salt
      and hash. */
  lemma EncodeDecodeRoundTrip(c: HashComponents, codec: Base64)
    requires ValidBase64(codec)
    requires ':' !in c.algorithm && ':' !in c.version
    requires c.salt != [] && c.hash != []
    ensures DecodeHash(EncodeHash(AsBuffers(c), codec), codec) == Some(c)
  {
    var fields := RecordFields(AsBuffers(c), codec);
    FieldsOfComponents(c, codec);
    SplitJoin(fields, ':');
    DecodeOfFields(EncodeHash(AsBuffers(c), codec), codec, fields, c);
  }

  /** The fields written for `c`: none holds a colon, the numbers are
      printed in decimal, and salt and hash are non-empty base64 texts that
      decode back to the bytes. */
  lemma FieldsOfComponents(c: HashComponents, codec: Base64)
    requires ValidBase64(codec)
    requires c.salt != [] && c.hash != []
    requires ':' !in c.algorithm && ':' !in c.version
    ensures var fields := RecordFields(AsBuffers(c), codec);
      && |fields| == 8 && (forall i :: 0 <= i < 8 ==> ':' !in fields[i])
      && fields[0] == c.algorithm && fields[1] == c.version
      && fields[2] == IntToString(c.cost) && fields[3] == IntToString(c.blockSize)
      && fields[4] == IntToString(c.parallelization) && fields[5] == IntToString(c.keyLength)
      && fields[6] != [] && fields[7] != []
      && codec.decode(fields[6]) == c.salt && codec.decode(fields[7]) == c.hash
  {
    NoColonInInt(c.cost);
    NoColonInInt(c.blockSize);
    NoColonInInt(c.parallelization);
    NoColonInInt(c.keyLength);
  }

  /** The decimal text of an integer holds no colon. */
  lemma NoColonInInt(n: int)
    ensures ':' !in IntToString(n)
  {
    var s := IntToString(n);
    if n < 0 {
      assert forall i :: 1 <= i < |s| ==> s[i] == s[1..][i - 1];
    }
  }

  /** A record whose eight fields read as the components decodes to them. */
  lemma DecodeOfFields(s: string, codec: Base64, parts: seq<string>, c: HashComponents)
    requires Split(s, ':') == parts && |parts| == 8
    requires parts[0] == c.algorithm && parts[1] == c.version
    requires parts[2] == IntToString(c.cost) && parts[3] == IntToString(c.blockSize)
    requires parts[4] == IntToString(c.parallelization) && parts[5] == IntToString(c.keyLength)
    requires parts[6] != [] && parts[7] != []
    requires codec.decode(parts[6]) == c.salt && codec.decode(parts[7]) == c.hash
    ensures DecodeHash(s, codec) == Some(c)
  {
    ParseIntRoundTrip(c.cost);
    ParseIntRoundTrip(c.blockSize);
    ParseIntRoundTrip(c.parallelization);
    ParseIntRoundTrip(c.keyLength);
  }

  /** `isLegacyBcryptHash` */
  function IsLegacyBcryptHash(s: string): (r: bool)
    ensures r <==> |s| >= 4 && s[0] == '$' && s[1] == '2' && s[2] in "aby" && s[3] == '$'
  {
    StartsWith(s, "$2a$") || StartsWith(s, "$2b$") || StartsWith(s, "$2y$")
  }

  /** `timingSafeEqual` on buffers of equal length; its constant running time is not modelled. */
  function TimingSafeEqual(a: Bytes, b: Bytes): bool
    requires |a| == |b|
  {
    a == b
  }

  /** `verifyPassword`: `Failure` stands for a rejected promise. */
  function VerifyPassword(password: string, stored: string, kdf: Kdf, codec: Base64): (r: Result<bool, PasswordError>)
    ensures IsLegacyBcryptHash(stored) <==> r == Failure(LegacyBcryptHash)
  {
    if IsLegacyBcryptHash(stored) then Failure(LegacyBcryptHash)
    else
      match DecodeHash(stored, codec)
      case None => Success(false)
      case Some(d) =>
        if d.algorithm != HashIdentifier || d.version != HashVersion then Success(false)
        else
          match kdf(password, d.salt, ScryptParamsFor(d.cost, d.blockSize, d.parallelization, d.keyLength))
          case None => Failure(KdfFailure)
          case Some(derived) =>
            if |derived| != |d.hash| then Success(false)
            else Success(TimingSafeEqual(derived, d.hash))
  }

  /** Records that do not decode, or that name another algorithm or version,
      are a mismatch and not an error. */
  lemma VerifyRejectsForeignRecords(password: string, stored: string, kdf: Kdf, codec: Base64)
    requires !IsLegacyBcryptHash(stored)
    requires var d := DecodeHash(stored, codec); d.None? || d.value.algorithm != "scrypt" || d.value.version != "1"
    ensures VerifyPassword(password, stored, kdf, codec) == Success(false)
  {
  }

  /** For a current-scheme record, the answer is whether scrypt, run with
      the record's own salt and parameters, reproduces the stored hash byte
      for byte; a derived key of another length is a mismatch. */
  lemma VerifyComparesDerivedKey(password: string, stored: string, kdf: Kdf, codec: Base64)
    requires !IsLegacyBcryptHash(stored)
    requires DecodeHash(stored, codec).Some?
    requires var d := DecodeHash(stored, codec).value; d.algorithm == "scrypt" && d.version == "1"
    ensures var d := DecodeHash(stored, codec).value;
      var derived := kdf(password, d.salt, ScryptParams(d.keyLength, d.cost, d.blockSize, d.parallelization, 256 * d.cost * d.blockSize));
      VerifyPassword(password, stored, kdf, codec) ==
        if derived.None? then Failure(KdfFailure)
        else Success(|derived.value| == |d.hash| && derived.value == d.hash)
  {
  }

  /** `hashPassword`, with the bytes `randomBytes(saltLength)` returned given as `salt`. */
  function HashPassword(password: string, options: PartialOptions, salt: Bytes, kdf: Kdf, codec: Base64): (r: Result<string, PasswordError>)
    requires ResolveOptions(options).saltLength >= 0 ==> |salt| == ResolveOptions(options).saltLength
    ensures r.Success? ==> StartsWith(r.value, "scrypt:1:")
  {
    var o := ResolveOptions(options);
    if o.saltLength < 0 then Failure(RandomBytesFailure)
    else
      match kdf(password, salt, ScryptParamsFor(o.cost, o.blockSize, o.parallelization, o.keyLength))
      case None => Failure(KdfFailure)
      case Some(derived) =>
        var c := HashComponents(HashIdentifier, HashVersion, o.cost, o.blockSize, o.parallelization, o.keyLength, salt, derived);
        var fields := RecordFields(AsBuffers(c), codec);
        var s := EncodeHash(AsBuffers(c), codec);
        var tail := Join(fields[2..], ':');
        assert fields[1..][1..] == fields[2..];
        assert Join(fields[1..], ':') == "1" + [':'] + tail;
        assert s == "scrypt" + [':'] + ("1" + [':'] + tail);
        assert s == "scrypt:1:" + tail;
        Success(s)
  }

  /** A successful `hashPassword` writes a record that decodes to the scrypt
      identifier, version 1, the resolved parameters, the salt and the key
      scrypt derived from them. */
  lemma HashPasswordRecord(password: string, options: PartialOptions, salt: Bytes, kdf: Kdf, codec: Base64)
    requires ValidKdf(kdf) && ValidBase64(codec)
    requires ResolveOptions(options).saltLength >= 0 ==> |salt| == ResolveOptions(options).saltLength
    requires ResolveOptions(options).saltLength > 0 && ResolveOptions(options).keyLength > 0
    requires HashPassword(password, options, salt, kdf, codec).Success?
    ensures var o := ResolveOptions(options);
      var params := ScryptParams(o.keyLength, o.cost, o.blockSize, o.parallelization, 256 * o.cost * o.blockSize);
      && kdf(password, salt, params).Some?
      && DecodeHash(HashPassword(password, options, salt, kdf, codec).value, codec)
         == Some(HashComponents("scrypt", "1", o.cost, o.blockSize, o.parallelization, o.keyLength, salt, kdf(password, salt, params).value))
  {
    var o := ResolveOptions(options);
    var derived := kdf(password, salt, ScryptParamsFor(o.cost, o.blockSize, o.parallelization, o.keyLength)).value;
    EncodeDecodeRoundTrip(HashComponents(HashIdentifier, HashVersion, o.cost, o.blockSize, o.parallelization, o.keyLength, salt, derived), codec);
  }

  /** Checking any password against a fresh record re-runs scrypt with the
      same salt and parameters; so the hashed password itself verifies and
      another one verifies exactly when scrypt gives it the same key. */
  lemma VerifyFreshRecord(password: string, candidate: string, options: PartialOptions, salt: Bytes, kdf: Kdf, codec: Base64)
    requires ValidKdf(kdf) && ValidBase64(codec)
    requires ResolveOptions(options).saltLength >= 0 ==> |salt| == ResolveOptions(options).saltLength
    requires ResolveOptions(options).saltLength > 0 && ResolveOptions(options).keyLength > 0
    requires HashPassword(password, options, salt, kdf, codec).Success?
    ensures var o := ResolveOptions(options);
      var params := ScryptParamsFor(o.cost, o.blockSize, o.parallelization, o.keyLength);
      var record := HashPassword(password, options, salt, kdf, codec).value;
      && VerifyPassword(password, record, kdf, codec) == Success(true)
      && VerifyPassword(candidate, record, kdf, codec) ==
         match kdf(candidate, salt, params)
         case None => Failure(KdfFailure)
         case Some(key) => Success(key == kdf(password, salt, params).value)
  {
    var record := HashPassword(password, options, salt, kdf, codec).value;
    HashPasswordRecord(password, options, salt, kdf, codec);
    NotLegacy(record);
    VerifyComparesDerivedKey(password, record, kdf, codec);
    VerifyComparesDerivedKey(candidate, record, kdf, codec);
  }

  /** A record that starts with the scrypt identifier is not a bcrypt string. */
  lemma NotLegacy(record: string)
    requires StartsWith(record, "scrypt:1:")
    ensures !IsLegacyBcryptHash(record)
  {
    assert record[0] == "scrypt:1:"[0];
  }

  /** A zero-length salt yields a record whose salt field is empty, which
      `decodeHash` refuses: such a record never verifies. */
  lemma EmptySaltNeverVerifies(password: string, candidate: string, options: PartialOptions, kdf: Kdf, codec: Base64)
    requires ValidBase64(codec)
    requires ResolveOptions(options).saltLength == 0
    requires HashPassword(password, options, [], kdf, codec).Success?
    ensures VerifyPassword(candidate, HashPassword(password, options, [], kdf, codec).value, kdf, codec) == Success(false)
  {
    var o := ResolveOptions(options);
    var derived := kdf(password, [], ScryptParamsFor(o.cost, o.blockSize, o.parallelization, o.keyLength)).value;
    var record := HashPassword(password, options, [], kdf, codec).value;
    var fields := RecordFields(AsBuffers(HashComponents(HashIdentifier, HashVersion, o.cost, o.blockSize, o.parallelization, o.keyLength, [], derived)), codec);
    assert fields[6] == codec.encode([]) == [];
    var parts := Split(record, ':');
    if |parts| == 8 {
      NoColonInFields(o, derived, codec);
      SplitJoin(fields, ':');
      assert parts[6] == [];
    }
  }

  lemma NoColonInFields(o: HashOptions, derived: Bytes, codec: Base64)
    requires ValidBase64(codec)
    ensures var fields := RecordFields(AsBuffers(HashComponents(HashIdentifier, HashVersion, o.cost, o.blockSize, o.parallelization, o.keyLength, [], derived)), codec);
      forall i :: 0 <= i < 8 ==> ':' !in fields[i]
  {
    NoColonInInt(o.cost);
    NoColonInInt(o.blockSize);
    NoColonInInt(o.parallelization);
    NoColonInInt(o.keyLength);
  }

  /** `needsRehash`: never throws. */
  function NeedsRehash(stored: string, options: PartialOptions, codec: Base64): bool {
    match DecodeHash(stored, codec)
    case None => true
    case Some(d) =>
      if d.algorithm != HashIdentifier || d.version != HashVersion then true
      else
        var o := ResolveOptions(options);
        d.cost != o.cost || d.blockSize != o.blockSize || d.parallelization != o.parallelization || d.keyLength != o.keyLength
  }

  /** A legacy bcrypt string always asks for a rehash: its first field starts
      with `$`, so it either does not decode or names another algorithm. */
  lemma LegacyNeedsRehash(stored: string, options: PartialOptions, codec: Base64)
    requires IsLegacyBcryptHash(stored)
    ensures NeedsRehash(stored, options, codec)
  {
    SplitFirstPiece(stored, ':');
    var first := Split(stored, ':')[0];
    assert first != [] ==> first[0] == '$';
  }

  /** A record that does not decode, or that names another algorithm or
      version, always asks for a rehash. */
  lemma NeedsRehashForeignRecords(stored: string, options: PartialOptions, codec: Base64)
    requires var d := DecodeHash(stored, codec); d.None? || d.value.algorithm != "scrypt" || d.value.version != "1"
    ensures NeedsRehash(stored, options, codec)
  {
  }

  /** For any record of the current scheme that decodes, a rehash is needed
      exactly when one of the four scrypt parameters differs from the
      resolved options; the salt and the salt length play no part. */
  lemma NeedsRehashComparesParameters(stored: string, options: PartialOptions, codec: Base64)
    requires DecodeHash(stored, codec).Some?
    requires var d := DecodeHash(stored, codec).value; d.algorithm == "scrypt" && d.version == "1"
    ensures var d, o := DecodeHash(stored, codec).value, ResolveOptions(options);
      NeedsRehash(stored, options, codec) <==>
        d.cost != o.cost || d.blockSize != o.blockSize || d.parallelization != o.parallelization || d.keyLength != o.keyLength
  {
  }

  /** A fresh record needs a rehash under other options exactly when they
      resolve to another cost, block size, parallelization or key length;
      the salt length is ignored. With the options it was made with, it
      never needs one. */
  lemma FreshRecordNeedsRehash(password: string, options: PartialOptions, current: PartialOptions, salt: Bytes, kdf: Kdf, codec: Base64)
    requires ValidKdf(kdf) && ValidBase64(codec)
    requires ResolveOptions(options).saltLength >= 0 ==> |salt| == ResolveOptions(options).saltLength
    requires ResolveOptions(options).saltLength > 0 && ResolveOptions(options).keyLength > 0
    requires HashPassword(password, options, salt, kdf, codec).Success?
    ensures var record := HashPassword(password, options, salt, kdf, codec).value;
      var o, c := ResolveOptions(options), ResolveOptions(current);
      && (NeedsRehash(record, current, codec) <==>
           o.cost != c.cost || o.blockSize != c.blockSize || o.parallelization != c.parallelization || o.keyLength != c.keyLength)
      && !NeedsRehash(record, options, codec)
  {
    HashPasswordRecord(password, options, salt, kdf, codec);
  }
}
