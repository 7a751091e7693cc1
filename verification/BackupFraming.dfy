/** The framing of password-protected backups (packages/shared/backup_crypto.py). */
module BackupFraming {
  import opened Wrappers
  import opened Utf8

  datatype Error =
    | PasswordTooShort | NotEncodable | KeyTooLong
    | MissingHeader | TooSmall | DecryptionFailed | PayloadTooSmall | KeyLengthMismatch | NotUtf8

  datatype Result<T> = Ok(value: T) | Err(error: Error)

  datatype Backup = Backup(masterKey: seq<Point>, data: seq<Byte>)

  /** Key derivation and authenticated encryption, known by their laws alone. */
  datatype Crypto = Crypto(
    derive: (seq<Byte>, seq<Byte>) -> seq<Byte>,                    // password, salt
    seal: (seq<Byte>, seq<Byte>, seq<Byte>) -> seq<Byte>,           // key, nonce, payload
    unseal: (seq<Byte>, seq<Byte>, seq<Byte>) -> Option<seq<Byte>>) // key, nonce, ciphertext

  // Decryption undoes encryption, and a 16-byte tag is added.
  ghost predicate Lawful(c: Crypto) {
    forall key, nonce, payload ::
      var sealed := c.seal(key, nonce, payload);
      c.unseal(key, nonce, sealed) == Some(payload) && |sealed| == |payload| + 16
  }

  // Nothing decrypts except what encryption produces: with key and nonce fixed, the tag and
  // the key stream are functions of the payload.
  ghost predicate Authentic(c: Crypto) {
    forall key, nonce, sealed ::
      var payload := c.unseal(key, nonce, sealed);
      payload.Some? ==> c.seal(key, nonce, payload.value) == sealed
  }

  // b"NEXUS_ENC_V1"
  const MAGIC: seq<Byte> := [78, 69, 88, 85, 83, 95, 69, 78, 67, 95, 86, 49]
  const SALT_SIZE := 16
  const NONCE_SIZE := 12
  const MIN_PASSWORD_LENGTH := 8
  const KEY_LIMIT := 0x1_0000_0000

  predicate IsEncryptedBackup(file: seq<Byte>) {
    |file| >= |MAGIC| && file[..|MAGIC|] == MAGIC
  }

  /******* Big-endian length field *******/

  // Four bytes, the most significant first.
  function PackLength(n: nat): (b: seq<Byte>)
    requires n < KEY_LIMIT
    ensures |b| == 4
  {
    [n / 0x100_0000, n / 0x1_0000 % 0x100, n / 0x100 % 0x100, n % 0x100]
  }

  function UnpackLength(b: seq<Byte>): (n: nat)
    requires |b| == 4
    ensures n < KEY_LIMIT
  {
    Shift(Shift(Shift(b[0], b[1]), b[2]), b[3])
  }

  function Shift(n: nat, b: Byte): nat { n * 0x100 + b }

  lemma {:induction false} Shifted(n: nat, b: Byte)
    ensures Shift(n, b) / 0x100 == n && Shift(n, b) % 0x100 == b
  {
  }

  lemma {:induction false} LengthIsBigEndian(n: nat)
    requires n < KEY_LIMIT
    ensures var b := PackLength(n); n == Spelled(0x100, b[0], b[1], b[2], b[3])
  {
    var a, b, c := n / 0x100, n / 0x1_0000, n / 0x100_0000;
    assert n == a * 0x100 + n % 0x100;
    assert b == a / 0x100 && a == b * 0x100 + a % 0x100;
    assert c == b / 0x100 && b == c * 0x100 + b % 0x100;
  }

  lemma {:induction false} LengthRoundTrip(n: nat)
    requires n < KEY_LIMIT
    ensures UnpackLength(PackLength(n)) == n
  {
    assert n / 0x1_0000 == n / 0x100 / 0x100 && n / 0x100_0000 == n / 0x1_0000 / 0x100;
  }

  lemma {:induction false} PackUnpacked(b: seq<Byte>)
    requires |b| == 4
    ensures PackLength(UnpackLength(b)) == b
  {
    var high := Shift(b[0], b[1]);
    Shifted(b[0], b[1]);
    Shifted(high, b[2]);
    Shifted(Shift(high, b[2]), b[3]);
    var n := UnpackLength(b);
    assert n / 0x1_0000 == n / 0x100 / 0x100 && n / 0x100_0000 == n / 0x1_0000 / 0x100;
  }

  /******* Operations *******/

  // Salt and nonce are what os.urandom returned.
  function EncryptBackup(c: Crypto, data: seq<Byte>, password: seq<Point>, masterKey: seq<Point>,
                         salt: seq<Byte>, nonce: seq<Byte>): Result<seq<Byte>>
  {
    if |password| < MIN_PASSWORD_LENGTH then Err(PasswordTooShort)
    else if !Encodable(masterKey) then Err(NotEncodable)
    else
      var key := Encode(masterKey);
      if |key| >= KEY_LIMIT then Err(KeyTooLong)
      else if !Encodable(password) then Err(NotEncodable)
      else
        var payload := PackLength(|key|) + key + data;
        Ok(MAGIC + salt + nonce + c.seal(c.derive(Encode(password), salt), nonce, payload))
  }

  function DecryptBackup(c: Crypto, file: seq<Byte>, password: seq<Point>): Result<Backup> {
    if !IsEncryptedBackup(file) then Err(MissingHeader)
    else if |file| < |MAGIC| + SALT_SIZE + NONCE_SIZE + 16 then Err(TooSmall)
    else
      var atNonce := |MAGIC| + SALT_SIZE;
      var atSealed := atNonce + NONCE_SIZE;
      var salt, nonce, sealed := file[|MAGIC|..atNonce], file[atNonce..atSealed], file[atSealed..];
      if !Encodable(password) then Err(NotEncodable)
      else
        match c.unseal(c.derive(Encode(password), salt), nonce, sealed)
        case None => Err(DecryptionFailed)
        case Some(payload) => Unpack(payload)
  }

  function Unpack(payload: seq<Byte>): Result<Backup> {
    if |payload| < 4 then Err(PayloadTooSmall)
    else
      var n := UnpackLength(payload[..4]);
      if |payload| < 4 + n then Err(KeyLengthMismatch)
      else
        match Decode(payload[4..4 + n])
        case None => Err(NotUtf8)
        case Some(masterKey) => Ok(Backup(masterKey, payload[4 + n..]))
  }

  /******* Round trips *******/

  // The payload holding a backup.
  predicate Holds(payload: seq<Byte>, backup: Backup) {
    && Encodable(backup.masterKey)
    && var key := Encode(backup.masterKey);
    && |key| < KEY_LIMIT
    && payload == PackLength(|key|) + key + backup.data
  }

  lemma {:induction false} PackThenUnpack(payload: seq<Byte>, backup: Backup)
    requires Holds(payload, backup)
    ensures Unpack(payload) == Ok(backup)
  {
    var key := Encode(backup.masterKey);
    LengthRoundTrip(|key|);
    RoundTrip(backup.masterKey);
    assert payload[..4] == PackLength(|key|);
    assert payload[4..4 + |key|] == key;
    assert payload[4 + |key|..] == backup.data;
  }

  lemma {:induction false} UnpackThenPack(payload: seq<Byte>)
    requires Unpack(payload).Ok?
    ensures Holds(payload, Unpack(payload).value)
  {
    var n := UnpackLength(payload[..4]);
    var key := payload[4..4 + n];
    PackUnpacked(payload[..4]);
    Canonical(key);
    assert |Encode(Decode(key).value)| == n;
    ThreeParts(payload, 4, 4 + n);
  }

  lemma {:induction false} ThreeParts(s: seq<Byte>, i: nat, j: nat)
    requires i <= j <= |s|
    ensures s == s[..i] + s[i..j] + s[j..]
  {
  }

  // The file made of a header, a salt, a nonce and a sealed payload holding the backup.
  ghost predicate Frames(c: Crypto, file: seq<Byte>, password: seq<Point>, backup: Backup,
                         salt: seq<Byte>, nonce: seq<Byte>, payload: seq<Byte>)
  {
    && |salt| == SALT_SIZE && |nonce| == NONCE_SIZE
    && Encodable(password)
    && Holds(payload, backup)
    && file == MAGIC + salt + nonce + c.seal(c.derive(Encode(password), salt), nonce, payload)
  }

  lemma {:induction false} FramedIsRead(c: Crypto, file: seq<Byte>, password: seq<Point>, backup: Backup,
                     salt: seq<Byte>, nonce: seq<Byte>, payload: seq<Byte>)
    requires Lawful(c) && Frames(c, file, password, backup, salt, nonce, payload)
    ensures DecryptBackup(c, file, password) == Ok(backup)
  {
    var key := c.derive(Encode(password), salt);
    var sealed := c.seal(key, nonce, payload);
    assert c.unseal(key, nonce, sealed) == Some(payload) && |sealed| == |payload| + 16;
    assert file[..12] == MAGIC && file[12..28] == salt && file[28..40] == nonce && file[40..] == sealed;
    PackThenUnpack(payload, backup);
  }

  lemma {:induction false} ReadIsFramed(c: Crypto, file: seq<Byte>, password: seq<Point>)
    returns (salt: seq<Byte>, nonce: seq<Byte>, payload: seq<Byte>)
    requires Authentic(c) && DecryptBackup(c, file, password).Ok?
    ensures Frames(c, file, password, DecryptBackup(c, file, password).value, salt, nonce, payload)
  {
    salt, nonce := file[12..28], file[28..40];
    var key := c.derive(Encode(password), salt);
    payload := c.unseal(key, nonce, file[40..]).value;
    assert c.seal(key, nonce, payload) == file[40..];
    assert file == file[..12] + file[12..28] + file[28..40] + file[40..];
    UnpackThenPack(payload);
  }

  // A backup is read back whenever one is written, and one is written exactly when the
  // password is long enough and both texts fit.
  lemma {:induction false} BackupRoundTrip(c: Crypto, data: seq<Byte>, password: seq<Point>, masterKey: seq<Point>,
                        salt: seq<Byte>, nonce: seq<Byte>)
    requires Lawful(c) && |salt| == SALT_SIZE && |nonce| == NONCE_SIZE
    ensures var file := EncryptBackup(c, data, password, masterKey, salt, nonce);
            && (file.Ok? <==> |password| >= MIN_PASSWORD_LENGTH && Encodable(password)
                              && Encodable(masterKey) && |Encode(masterKey)| < KEY_LIMIT)
            && (file.Ok? ==> DecryptBackup(c, file.value, password) == Ok(Backup(masterKey, data)))
  {
    var file := EncryptBackup(c, data, password, masterKey, salt, nonce);
    if file.Ok? {
      var key := Encode(masterKey);
      var payload := PackLength(|key|) + key + data;
      FramedIsRead(c, file.value, password, Backup(masterKey, data), salt, nonce, payload);
    }
  }

  // Conversely, what decryption accepts is what encryption writes: for a long enough
  // password, the accepted files are exactly the encryptor's, and each reads as its backup.
  lemma {:induction false} AcceptedIffWritten(c: Crypto, file: seq<Byte>, password: seq<Point>, backup: Backup)
    requires Lawful(c) && Authentic(c) && |password| >= MIN_PASSWORD_LENGTH
    ensures DecryptBackup(c, file, password) == Ok(backup)
       <==> exists salt: seq<Byte>, nonce: seq<Byte> ::
              (|salt| == SALT_SIZE && |nonce| == NONCE_SIZE
               && EncryptBackup(c, backup.data, password, backup.masterKey, salt, nonce) == Ok(file))
  {
    if DecryptBackup(c, file, password) == Ok(backup) {
      var salt, nonce, payload := ReadIsFramed(c, file, password);
      assert EncryptBackup(c, backup.data, password, backup.masterKey, salt, nonce) == Ok(file);
    }
    forall salt: seq<Byte>, nonce: seq<Byte>
      | (|salt| == SALT_SIZE && |nonce| == NONCE_SIZE
         && EncryptBackup(c, backup.data, password, backup.masterKey, salt, nonce) == Ok(file))
      ensures DecryptBackup(c, file, password) == Ok(backup)
    {
      BackupRoundTrip(c, backup.data, password, backup.masterKey, salt, nonce);
    }
  }

  /******* The file, byte by byte *******/

  const HEADER := "NEXUS_ENC_V1"

  lemma {:induction false} MagicIsHeader()
    ensures |MAGIC| == |HEADER| == 12 && forall i :: 0 <= i < 12 ==> MAGIC[i] == HEADER[i] as int
  {
  }

  // The layout of a written backup: header, salt, nonce, and the payload sealed under the key
  // derived from the password's UTF-8 and the salt; in the payload the length of the master
  // key's UTF-8, that, and the data.
  lemma {:induction false} FileLayout(c: Crypto, data: seq<Byte>, password: seq<Point>, masterKey: seq<Point>,
                   salt: seq<Byte>, nonce: seq<Byte>) returns (payload: seq<Byte>)
    requires |salt| == SALT_SIZE && |nonce| == NONCE_SIZE
    requires EncryptBackup(c, data, password, masterKey, salt, nonce).Ok?
    ensures var file, n := EncryptBackup(c, data, password, masterKey, salt, nonce).value, |Encode(masterKey)|;
      && |file| >= 40 && (forall i :: 0 <= i < 12 ==> file[i] == HEADER[i] as int)
      && file[12..28] == salt && file[28..40] == nonce
      && file[40..] == c.seal(c.derive(Encode(password), salt), nonce, payload)
      && |payload| == 4 + n + |data|
      && Spelled(0x100, payload[0], payload[1], payload[2], payload[3]) == n
      && payload[4..4 + n] == Encode(masterKey) && payload[4 + n..] == data
  {
    var file, key := EncryptBackup(c, data, password, masterKey, salt, nonce).value, Encode(masterKey);
    payload := PackLength(|key|) + key + data;
    MagicIsHeader();
    LengthIsBigEndian(|key|);
    var sealed := c.seal(c.derive(Encode(password), salt), nonce, payload);
    FourParts(MAGIC, salt, nonce, sealed);
    FrontOf(PackLength(|key|), key, data);
    assert forall i :: 0 <= i < 12 ==> file[i] == file[..12][i];
  }

  lemma {:induction false} FourParts(a: seq<Byte>, b: seq<Byte>, c: seq<Byte>, d: seq<Byte>)
    ensures var s, i, j, k := a + b + c + d, |a|, |a| + |b|, |a| + |b| + |c|;
      |s| == k + |d| && s[..i] == a && s[i..j] == b && s[j..k] == c && s[k..] == d
  {
  }

  lemma {:induction false} FrontOf(a: seq<Byte>, b: seq<Byte>, c: seq<Byte>)
    ensures var s, i, j := a + b + c, |a|, |a| + |b|;
      |s| == j + |c| && (forall k :: 0 <= k < i ==> s[k] == a[k]) && s[i..j] == b && s[j..] == c
  {
  }

  // The first check that fails names the error.
  lemma {:induction false} WriterErrors(c: Crypto, data: seq<Byte>, password: seq<Point>, masterKey: seq<Point>,
                     salt: seq<Byte>, nonce: seq<Byte>)
    ensures var file := EncryptBackup(c, data, password, masterKey, salt, nonce);
      && (file == Err(PasswordTooShort) <==> |password| < 8)
      && (file == Err(KeyTooLong) <==> |password| >= 8 && Encodable(masterKey) && |Encode(masterKey)| >= 0x1_0000_0000)
  {
  }

  lemma {:induction false} ReaderErrors(c: Crypto, file: seq<Byte>, password: seq<Point>)
    ensures var backup := DecryptBackup(c, file, password);
      var headed := |file| >= 12 && forall i :: 0 <= i < 12 ==> file[i] == HEADER[i] as int;
      && (backup == Err(MissingHeader) <==> !headed)
      && (backup == Err(TooSmall) <==> headed && |file| < 56)
      && (backup == Err(DecryptionFailed) <==>
            headed && |file| >= 56 && Encodable(password)
            && c.unseal(c.derive(Encode(password), file[12..28]), file[28..40], file[40..]) == None)
  {
    MagicIsHeader();
    HeaderIff(file);
  }

  lemma {:induction false} HeaderIff(file: seq<Byte>)
    ensures IsEncryptedBackup(file) <==> |file| >= 12 && forall i :: 0 <= i < 12 ==> file[i] == HEADER[i] as int
  {
    MagicIsHeader();
    if |file| >= 12 {
      assert forall i :: 0 <= i < 12 ==> file[..12][i] == file[i];
      if forall i :: 0 <= i < 12 ==> file[i] == HEADER[i] as int {
        assert file[..12] == MAGIC;
      }
    }
  }
}
