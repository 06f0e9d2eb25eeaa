/** Versioned at-rest keys: the key registry on disk, the blob format, rotation and restart. */
module Crypto {
  import opened Basics
  import opened ByteStrings

  const KEY_SIZE := 32
  const IV_SIZE := 12
  const TAG_SIZE := 16
  const HEADER_SIZE := 8
  const MAX_INT := 0x7FFF_FFFF

  // "PQF2"
  const MAGIC: Bytes := [80, 81, 70, 50]

  /** An authenticated cipher; opening what was sealed under the same key and IV gives the plaintext back. */
  datatype Aead = Aead(seal: (Bytes, Bytes, Bytes) -> (Bytes, Bytes),
                       open: (Bytes, Bytes, Bytes, Bytes) -> Option<Bytes>)

  ghost predicate IsAead(a: Aead) {
    forall key, iv, plain :: |iv| == IV_SIZE ==>
      var (cipher, tag) := a.seal(key, iv, plain);
      |tag| == TAG_SIZE && a.open(key, cipher, iv, tag) == Some(plain)
  }

  // ----- 32-bit big-endian header -----

  function WriteUint32(value: int): (r: Bytes)
    requires 0 <= value < 0x1_0000_0000
    ensures |r| == 4
  {
    [(value / 0x100_0000) as byte, (value / 0x1_0000 % 0x100) as byte, (value / 0x100 % 0x100) as byte,
     (value % 0x100) as byte]
  }

  function ReadUint32(b: Bytes): (r: int)
    requires |b| == 4
    ensures 0 <= r < 0x1_0000_0000
  {
    b[0] as int * 0x100_0000 + b[1] as int * 0x1_0000 + b[2] as int * 0x100 + b[3] as int
  }

  lemma HeaderRoundTrip(value: int, b: Bytes)
    ensures 0 <= value < 0x1_0000_0000 ==> ReadUint32(WriteUint32(value)) == value
    ensures |b| == 4 ==> WriteUint32(ReadUint32(b)) == b
  {
    if 0 <= value < 0x1_0000_0000 {
      DigitsOf(value);
    }
    if |b| == 4 {
      var w, x, y, z := b[0] as int, b[1] as int, b[2] as int, b[3] as int;
      OfDigits(w, x, y, z);
      assert WriteUint32(ReadUint32(b)) == [w as byte, x as byte, y as byte, z as byte] == b;
    }
  }

  lemma DigitsOf(v: int)
    requires v >= 0
    ensures v / 0x100_0000 * 0x100_0000 + v / 0x1_0000 % 0x100 * 0x1_0000 + v / 0x100 % 0x100 * 0x100 + v % 0x100 == v
  {
    assert v / 0x1_0000 == v / 0x100 / 0x100 && v / 0x100_0000 == v / 0x1_0000 / 0x100;
  }

  lemma OfDigits(w: int, x: int, y: int, z: int)
    requires 0 <= w < 0x100 && 0 <= x < 0x100 && 0 <= y < 0x100 && 0 <= z < 0x100
    ensures var v := w * 0x100_0000 + x * 0x1_0000 + y * 0x100 + z;
      v / 0x100_0000 == w && v / 0x1_0000 % 0x100 == x && v / 0x100 % 0x100 == y && v % 0x100 == z
  {
    var v := w * 0x100_0000 + x * 0x1_0000 + y * 0x100 + z;
    assert v / 0x100 == w * 0x1_0000 + x * 0x100 + y;
    assert v / 0x1_0000 == w * 0x100 + x;
  }

  /** The casts between int and uint32_t. */
  function ToUint32(v: int): int {
    v % 0x1_0000_0000
  }

  function ToInt32(v: int): int {
    if v > MAX_INT then v - 0x1_0000_0000 else v
  }

  // ----- Keys and disk -----

  datatype KeyState = KeyState(key: Bytes, active: int, versions: map<int, Bytes>)

  /** The files of the key directory: the master key file and one file a version. */
  datatype Path = NoPath | MasterKey | Versioned(version: int)

  datatype Registry = Registry(active: int, paths: map<int, Path>)

  datatype KeyDisk = KeyDisk(files: map<Path, Bytes>, registry: Option<Registry>)

  /** The textual path of a version: stem, ".v", the number, extension. */
  function VersionedKeyPath(stem: Bytes, ext: Bytes, version: int): Bytes {
    stem + [46, 118] + DecimalInt(version) + ext
  }

  /** Distinct versions live in distinct files. */
  lemma VersionedKeyPathInjective(stem: Bytes, ext: Bytes, v: int, v': int)
    ensures VersionedKeyPath(stem, ext, v) == VersionedKeyPath(stem, ext, v') <==> v == v'
    ensures v >= 0 ==> exists digits ::
      AllDigits(digits) && DigitValue(digits) == v && VersionedKeyPath(stem, ext, v) == stem + [46, 118] + digits + ext
  {
    if v >= 0 { DecimalReads(v); }
    var p, q := VersionedKeyPath(stem, ext, v), VersionedKeyPath(stem, ext, v');
    assert p[|stem| + 2..|p| - |ext|] == DecimalInt(v);
    assert q[|stem| + 2..|q| - |ext|] == DecimalInt(v');
    DecimalIntInjective(v, v');
  }

  ghost predicate KeysOk(k: KeyState) {
    && 1 <= k.active <= MAX_INT
    && (forall v :: v in k.versions <==> 1 <= v <= k.active)
    && (forall v :: v in k.versions ==> |k.versions[v]| == KEY_SIZE)
    && k.key == k.versions[k.active]
  }

  function SavedRegistry(k: KeyState): Registry {
    Registry(k.active, map v | v in k.versions :: Versioned(v))
  }

  ghost predicate DiskOk(k: KeyState, d: KeyDisk) {
    && d.registry == Some(SavedRegistry(k))
    && forall v :: v in k.versions ==>
      ReadableIn(d.files, Versioned(v)) && d.files[Versioned(v)][..KEY_SIZE] == k.versions[v]
  }

  // ----- Blobs -----

  function EncryptBlob(a: Aead, k: KeyState, iv: Bytes, plain: Bytes): Bytes {
    var (cipher, tag) := a.seal(k.key, iv, plain);
    MAGIC + WriteUint32(ToUint32(k.active)) + iv + cipher + tag
  }

  function DecryptBlob(a: Aead, k: KeyState, blob: Bytes): Result<Bytes> {
    if |blob| >= HEADER_SIZE + IV_SIZE + TAG_SIZE && blob[..4] == MAGIC then
      var version := ToInt32(ReadUint32(blob[4..8]));
      if version !in k.versions then Fail
      else Opened(a, k.versions[version], blob[HEADER_SIZE..])
    else if |blob| < IV_SIZE + TAG_SIZE then Fail
    else Opened(a, k.key, blob)
  }

  /** IV, ciphertext, tag. */
  function Opened(a: Aead, key: Bytes, body: Bytes): Result<Bytes>
    requires |body| >= IV_SIZE + TAG_SIZE
  {
    match a.open(key, body[IV_SIZE..|body| - TAG_SIZE], body[..IV_SIZE], body[|body| - TAG_SIZE..])
    case Some(plain) => Ok(plain)
    case None => Fail
  }

  function Rotate(k: KeyState, newKey: Bytes): KeyState {
    KeyState(newKey, k.active + 1, k.versions[k.active + 1 := newKey])
  }

  /** Rotation writes the new key's file, then the registry. */
  function RotatedRing(r: Keyring, newKey: Bytes): Keyring {
    var k := Rotate(r.keys, newKey);
    Keyring(k, KeyDisk(r.disk.files[Versioned(k.active) := newKey], Some(SavedRegistry(k))))
  }

  lemma RotateKeepsRing(r: Keyring, newKey: Bytes)
    requires KeyringOk(r) && |newKey| == KEY_SIZE && r.keys.active < MAX_INT
    ensures KeyringOk(RotatedRing(r, newKey)) && Extends(r.keys, RotatedRing(r, newKey).keys)
  {
  }

  /** Every key of k is still held, unchanged, by k'. */
  ghost predicate Extends(k: KeyState, k': KeyState) {
    forall v :: v in k.versions ==> v in k'.versions && k'.versions[v] == k.versions[v]
  }

  /** A blob says which version it was written under, and what follows the header. */
  lemma BlobParts(a: Aead, k: KeyState, iv: Bytes, plain: Bytes)
    requires IsAead(a) && KeysOk(k) && |iv| == IV_SIZE
    ensures var (cipher, tag) := a.seal(k.key, iv, plain);
      var blob := EncryptBlob(a, k, iv, plain);
      && |tag| == TAG_SIZE && |blob| >= HEADER_SIZE + IV_SIZE + TAG_SIZE && blob[..4] == MAGIC
      && ToInt32(ReadUint32(blob[4..8])) == k.active && blob[HEADER_SIZE..] == iv + cipher + tag
  {
    hide WriteUint32, ReadUint32;
    var (cipher, tag) := a.seal(k.key, iv, plain);
    var header := WriteUint32(k.active);
    HeaderRoundTrip(k.active, header);
    var blob := EncryptBlob(a, k, iv, plain);
    assert blob == MAGIC + header + iv + cipher + tag;
    assert blob[4..8] == header;
  }

  /** The bytes of a blob: "PQF2", the active version with its highest byte first, the IV, the ciphertext and the tag
      under the working key. */
  lemma BlobLayout(a: Aead, k: KeyState, iv: Bytes, plain: Bytes)
    requires IsAead(a) && KeysOk(k) && |iv| == IV_SIZE
    ensures var (cipher, tag) := a.seal(k.key, iv, plain);
      var blob := EncryptBlob(a, k, iv, plain);
      && |blob| == 36 + |cipher| && |tag| == 16 && blob[..4] == [80, 81, 70, 50]
      && blob[4] as int * 0x100_0000 + blob[5] as int * 0x1_0000 + blob[6] as int * 0x100 + blob[7] as int == k.active
      && blob[8..20] == iv && blob[20..|blob| - 16] == cipher && blob[|blob| - 16..] == tag
  {
    BlobParts(a, k, iv, plain);
    var (cipher, tag) := a.seal(k.key, iv, plain);
    var blob := EncryptBlob(a, k, iv, plain);
    HeaderRoundTrip(k.active, []);
    hide WriteUint32, EncryptBlob, IsAead;
    assert ReadUint32(blob[4..8]) == ToUint32(k.active) by { FromInt32(ReadUint32(blob[4..8])); }
    var body := blob[8..];
    assert blob == blob[..8] + body;
    assert body == iv + cipher + tag;
    assert blob[8..20] == body[..12] && blob[20..|blob| - 16] == body[12..|body| - 16]
      && blob[|blob| - 16..] == body[|body| - 16..];
  }

  lemma FromInt32(x: int)
    requires 0 <= x < 0x1_0000_0000 && ToInt32(x) > 0
    ensures x == ToInt32(x)
  {
  }

  /** What decryption does with bytes of any origin: "PQF2" names a version, which must be held, and its key opens the
      rest; anything else is opened with the working key, if it is long enough. */
  lemma DecryptReads(a: Aead, k: KeyState, blob: Bytes)
    ensures var versioned := |blob| >= 36 && blob[..4] == [80, 81, 70, 50];
      && (versioned ==>
            && var v := blob[4] as int * 0x100_0000 + blob[5] as int * 0x1_0000 + blob[6] as int * 0x100
                        + blob[7] as int;
            && var held := if v < 0x8000_0000 then v else v - 0x1_0000_0000;
            && var plain := if held in k.versions
                 then a.open(k.versions[held], blob[20..|blob| - 16], blob[8..20], blob[|blob| - 16..]) else None;
            && DecryptBlob(a, k, blob) == (if plain.Some? then Ok(plain.value) else Fail))
      && (!versioned && |blob| >= 28 ==>
            && var plain := a.open(k.key, blob[12..|blob| - 16], blob[..12], blob[|blob| - 16..]);
            && DecryptBlob(a, k, blob) == (if plain.Some? then Ok(plain.value) else Fail))
      && (|blob| < 28 ==> DecryptBlob(a, k, blob) == Fail)
  {
    if |blob| >= 36 {
      var body := blob[8..];
      assert body[12..|body| - 16] == blob[20..|blob| - 16] && body[..12] == blob[8..20];
      assert body[|body| - 16..] == blob[|blob| - 16..];
    }
  }

  lemma OpenedParts(a: Aead, key: Bytes, iv: Bytes, plain: Bytes)
    requires IsAead(a) && |iv| == IV_SIZE
    ensures var (cipher, tag) := a.seal(key, iv, plain);
      |tag| == TAG_SIZE && Opened(a, key, iv + cipher + tag) == Ok(plain)
  {
    var (cipher, tag) := a.seal(key, iv, plain);
    assert |tag| == TAG_SIZE && a.open(key, cipher, iv, tag) == Some(plain);
    var body := iv + cipher + tag;
    assert body[..IV_SIZE] == iv;
    assert body[IV_SIZE..|body| - TAG_SIZE] == cipher;
    assert body[|body| - TAG_SIZE..] == tag;
  }

  /** A blob written under one key state opens under every later one. */
  lemma BlobRoundTrip(a: Aead, k: KeyState, k': KeyState, iv: Bytes, plain: Bytes)
    requires IsAead(a) && KeysOk(k) && Extends(k, k') && |iv| == IV_SIZE
    ensures DecryptBlob(a, k', EncryptBlob(a, k, iv, plain)) == Ok(plain)
  {
    BlobParts(a, k, iv, plain);
    OpenedParts(a, k.key, iv, plain);
    hide IsAead, EncryptBlob, Opened, ReadUint32, ToInt32;
  }

  // ----- Loading -----

  predicate ReadableIn(files: map<Path, Bytes>, p: Path) {
    p in files && |files[p]| >= KEY_SIZE
  }

  predicate Listed(r: Registry, v: int) {
    v in r.paths && v > 0 && r.paths[v] != NoPath
  }

  function RegistryKeys(files: map<Path, Bytes>, r: Registry): map<int, Bytes> {
    map v | v in r.paths && Listed(r, v) && ReadableIn(files, r.paths[v]) :: files[r.paths[v]][..KEY_SIZE]
  }

  /** Reading back a directory that DiskOk describes gives the very same keys. */
  lemma ReloadRestores(k: KeyState, d: KeyDisk)
    requires KeysOk(k) && DiskOk(k, d)
    ensures AllReadable(d.files, d.registry.value)
    ensures RegistryKeys(d.files, d.registry.value) == k.versions
  {
    var r := d.registry.value;
    forall v | v in k.versions
      ensures Listed(r, v) && ReadableIn(d.files, r.paths[v]) && d.files[r.paths[v]][..KEY_SIZE] == k.versions[v] {
      assert r.paths[v] == Versioned(v);
    }
  }

  /** The keys of a running engine, and the directory they are kept in. */
  datatype Keyring = Keyring(keys: KeyState, disk: KeyDisk)

  predicate AllReadable(files: map<Path, Bytes>, r: Registry) {
    forall v <- r.paths :: Listed(r, v) ==> ReadableIn(files, r.paths[v])
  }

  /** What a process start makes of a directory: the keys its registry lists; without a registry an existing master key
      file as version 1, or a new key; nothing if a listed file is unreadable or the active version is not listed. */
  function LoadKeys(d: KeyDisk, random: Bytes): Option<Keyring> {
    match d.registry
    case Some(r) =>
      var keys := RegistryKeys(d.files, r);
      if AllReadable(d.files, r) && r.active in keys then Some(Keyring(KeyState(keys[r.active], r.active, keys), d))
        else None
    case None =>
      if MasterKey in d.files then
        if ReadableIn(d.files, MasterKey) then
          Some(FirstKeyring(d.files[Versioned(1) := d.files[MasterKey]], d.files[MasterKey][..KEY_SIZE]))
        else None
      else Some(FirstKeyring(d.files[MasterKey := random][Versioned(1) := random], random))
  }

  function FirstKeyring(files: map<Path, Bytes>, key: Bytes): Keyring {
    var k := KeyState(key, 1, map[1 := key]);
    Keyring(k, KeyDisk(files, Some(SavedRegistry(k))))
  }

  ghost predicate KeyringOk(r: Keyring) {
    KeysOk(r.keys) && DiskOk(r.keys, r.disk)
  }

  /** A directory without a registry that loads at all gives version 1, its key stored. */
  lemma FirstLoadOk(d: KeyDisk, random: Bytes)
    requires d.registry.None? && |random| == KEY_SIZE
    ensures LoadKeys(d, random).None? <==> MasterKey in d.files && |d.files[MasterKey]| < KEY_SIZE
    ensures LoadKeys(d, random).Some? ==> KeyringOk(LoadKeys(d, random).value)
  {
  }

  /** Which directories load, and with which keys. With a registry: all keys listed under a positive version and a path,
      each the first 32 bytes of its file, if every file has as many and the active version is among them. Without one:
      the first 32 bytes of the master key file, or a new key, as version 1. */
  lemma LoadsExactly(d: KeyDisk, random: Bytes)
    ensures d.registry.Some? ==>
      var r, loaded := d.registry.value, LoadKeys(d, random);
      && (loaded.Some? <==>
            && (forall v :: v in r.paths && v > 0 && r.paths[v] != NoPath ==>
                  r.paths[v] in d.files && |d.files[r.paths[v]]| >= 32)
            && r.active in r.paths && r.active > 0 && r.paths[r.active] != NoPath)
      && (loaded.Some? ==>
            && loaded.value.disk == d && loaded.value.keys.active == r.active
            && (forall v :: v in loaded.value.keys.versions <==> v in r.paths && v > 0 && r.paths[v] != NoPath)
            && (forall v :: v in loaded.value.keys.versions ==>
                  v in r.paths && r.paths[v] in d.files && |d.files[r.paths[v]]| >= 32
                  && loaded.value.keys.versions[v] == d.files[r.paths[v]][..32])
            && r.active in loaded.value.keys.versions
            && loaded.value.keys.key == loaded.value.keys.versions[r.active])
    ensures d.registry.None? ==>
      var loaded := LoadKeys(d, random);
      && (loaded.None? <==> MasterKey in d.files && |d.files[MasterKey]| < 32)
      && (loaded.Some? ==>
            var key := if MasterKey in d.files then d.files[MasterKey][..32] else random;
            var stored := if MasterKey in d.files then d.files[MasterKey] else random;
            && loaded.value.keys == KeyState(key, 1, map[1 := key])
            && loaded.value.disk.files == d.files[MasterKey := stored][Versioned(1) := stored]
            && loaded.value.disk.registry == Some(Registry(1, map[1 := Versioned(1)])))
  {
    if d.registry.Some? {
      var r := d.registry.value;
      assert forall v :: v in r.paths && v > 0 && r.paths[v] != NoPath <==> Listed(r, v);
    } else {
      var key := if MasterKey in d.files then d.files[MasterKey][..if |d.files[MasterKey]| < 32 then 0 else 32]
        else random;
      assert SavedRegistry(KeyState(key, 1, map[1 := key])).paths == map[1 := Versioned(1)];
      assert MasterKey in d.files ==> d.files[MasterKey := d.files[MasterKey]] == d.files;
    }
  }

  /** Loading from the directory an engine keeps gives back its keys, and leaves the directory alone. */
  lemma LoadRestores(r: Keyring, random: Bytes)
    requires KeyringOk(r)
    ensures LoadKeys(r.disk, random) == Some(r)
  {
    ReloadRestores(r.keys, r.disk);
    assert r.keys.active in r.keys.versions;
  }

  lemma SomeElement(s: set<int>)
    ensures s != {} ==> exists v :: v in s
  {
    if forall v :: v !in s {
      assert s == {};
    }
  }

  /** Taking one more key of a map while walking through its keys. */
  lemma WalkStep<T>(m: map<int, T>, todo: set<int>, v: int)
    requires v in todo
    ensures v in m ==> (m - todo)[v := m[v]] == m - (todo - {v})
    ensures v !in m ==> m - todo == m - (todo - {v})
  {
  }

  /** The loop over the held keys that builds the registry's list, in any order. */
  method ListPaths(versions: map<int, Bytes>) returns (paths: map<int, Path>)
    ensures paths == map v | v in versions :: Versioned(v)
  {
    ghost var target := map v | v in versions :: Versioned(v);
    var todo := versions.Keys;
    paths := map[];
    while todo != {}
      invariant todo <= versions.Keys
      invariant paths == target - todo
      decreases |todo|
    {
      SomeElement(todo);
      var v :| v in todo;
      WalkStep(target, todo, v);
      paths := paths[v := Versioned(v)];
      todo := todo - {v};
    }
  }

  /** Opens a key file and reads its first 32 bytes. */
  method LoadKeyBytes(files: map<Path, Bytes>, path: Path) returns (r: Result<Bytes>)
    ensures r == if ReadableIn(files, path) then Ok(files[path][..KEY_SIZE]) else Fail
  {
    if path !in files || |files[path]| < KEY_SIZE {
      return Fail;
    }
    return Ok(files[path][..KEY_SIZE]);
  }

  /** The loop over the registry's list: bad entries are skipped, an unreadable key file stops the load. */
  method LoadListedKeys(files: map<Path, Bytes>, saved: Registry) returns (r: Result<map<int, Bytes>>)
    ensures r.Ok? <==> forall v :: Listed(saved, v) ==> ReadableIn(files, saved.paths[v])
    ensures r.Ok? ==> r.value == RegistryKeys(files, saved)
  {
    ghost var target := RegistryKeys(files, saved);
    var loaded: map<int, Bytes> := map[];
    var todo := saved.paths.Keys;
    while todo != {}
      invariant todo <= saved.paths.Keys
      invariant forall v :: Listed(saved, v) && v !in todo ==> ReadableIn(files, saved.paths[v])
      invariant loaded == target - todo
      decreases |todo|
    {
      SomeElement(todo);
      var v :| v in todo;
      WalkStep(target, todo, v);
      todo := todo - {v};
      if v > 0 && saved.paths[v] != NoPath {
        var bytes := LoadKeyBytes(files, saved.paths[v]);
        if bytes.Fail? {
          assert Listed(saved, v);
          return Fail;
        }
        loaded := loaded[v := bytes.value];
      }
    }
    return Ok(loaded);
  }

  // ----- The engine -----

  class CryptoEngine {
    const aead: Aead
    var key: Bytes
    var activeKeyVersion: int
    var keyVersions: map<int, Bytes>
    var files: map<Path, Bytes>
    var registry: Option<Registry>

    ghost function Keys(): KeyState
      reads this
    {
      KeyState(key, activeKeyVersion, keyVersions)
    }

    ghost function Disk(): KeyDisk
      reads this
    {
      KeyDisk(files, registry)
    }

    ghost predicate Valid()
      reads this
    {
      IsAead(aead) && KeysOk(Keys()) && DiskOk(Keys(), Disk())
    }

    /** A process start over a key directory left by an earlier one; call Load next. */
    constructor (aead: Aead, files: map<Path, Bytes>, registry: Option<Registry>)
      ensures this.aead == aead && this.files == files && this.registry == registry
    {
      this.aead := aead;
      this.files, this.registry := files, registry;
      key, activeKeyVersion, keyVersions := [], 1, map[];
    }

    method SaveKeyRegistry()
      modifies this`registry
      ensures registry == Some(SavedRegistry(Keys()))
    {
      var paths := ListPaths(keyVersions);
      registry := Some(Registry(activeKeyVersion, paths));
    }

    /** Loads from the registry if there is one, else adopts an existing master key file as version 1,
        else generates version 1. */
    method LoadOrGenerateKey(random: Bytes) returns (ok: bool)
      requires |random| == KEY_SIZE
      modifies this
      ensures ok <==> LoadKeys(old(Disk()), random).Some?
      ensures ok ==> Keyring(Keys(), Disk()) == LoadKeys(old(Disk()), random).value
      ensures old(registry).Some? ==> Disk() == old(Disk())
      ensures ok && old(registry).None? ==>
        && activeKeyVersion == 1 && keyVersions == map[1 := key] && |key| == KEY_SIZE
        && key == (if MasterKey in old(files) then old(files)[MasterKey][..KEY_SIZE] else random)
        && MasterKey in files && Versioned(1) in files && files[Versioned(1)] == files[MasterKey]
        && files[MasterKey][..KEY_SIZE] == key
    {
      keyVersions := map[];
      if registry.Some? {
        activeKeyVersion := registry.value.active;
        var loaded := LoadListedKeys(files, registry.value);
        if loaded.Fail? { return false; }
        keyVersions := loaded.value;
      } else if MasterKey in files {
        activeKeyVersion := 1;
        var bytes := LoadKeyBytes(files, MasterKey);
        if bytes.Fail? { return false; }
        keyVersions := keyVersions[1 := bytes.value];
        files := files[Versioned(1) := files[MasterKey]];
        SaveKeyRegistry();
      } else {
        files := files[MasterKey := random];
        activeKeyVersion := 1;
        keyVersions := keyVersions[1 := random];
        files := files[Versioned(1) := random];
        SaveKeyRegistry();
      }
      if activeKeyVersion !in keyVersions {
        return false;
      }
      key := keyVersions[activeKeyVersion];
      ok := true;
    }

    /** A restart over the directory this engine left behind comes back with the same keys. */
    method Restart(random: Bytes) returns (ok: bool)
      requires Valid() && |random| == KEY_SIZE
      modifies this
      ensures ok && Valid() && Keys() == old(Keys()) && Disk() == old(Disk())
    {
      LoadRestores(Keyring(Keys(), Disk()), random);
      ok := LoadOrGenerateKey(random);
    }

    method RotateMasterKey(random: Bytes) returns (version: int)
      requires Valid() && |random| == KEY_SIZE && activeKeyVersion < MAX_INT
      modifies this
      ensures Valid() && version == activeKeyVersion == old(activeKeyVersion) + 1
      ensures Keyring(Keys(), Disk()) == RotatedRing(old(Keyring(Keys(), Disk())), random)
      ensures key == random && keyVersions == old(keyVersions)[version := random]
      ensures files == old(files)[Versioned(version) := random]
      ensures registry.Some? && registry.value.active == version
      ensures forall v :: v in registry.value.paths <==> 1 <= v <= version
      ensures forall v :: v in registry.value.paths ==> registry.value.paths[v] == Versioned(v)
    {
      var newVersion := activeKeyVersion + 1;
      files := files[Versioned(newVersion) := random];
      keyVersions := keyVersions[newVersion := random];
      activeKeyVersion := newVersion;
      key := random;
      SaveKeyRegistry();
      return activeKeyVersion;
    }

    /** Magic, big-endian version, IV, ciphertext, tag, appended in that order. */
    method Encrypt(iv: Bytes, plain: Bytes) returns (blob: Bytes)
      requires |iv| == IV_SIZE
      ensures blob == EncryptBlob(aead, Keys(), iv, plain)
    {
      var (cipher, tag) := aead.seal(key, iv, plain);
      blob := MAGIC;
      blob := blob + WriteUint32(ToUint32(activeKeyVersion));
      blob := blob + iv;
      blob := blob + cipher;
      blob := blob + tag;
    }

    method Decrypt(blob: Bytes) returns (plain: Result<Bytes>)
      ensures plain == DecryptBlob(aead, Keys(), blob)
    {
      if |blob| >= HEADER_SIZE + IV_SIZE + TAG_SIZE && blob[..4] == MAGIC {
        var version := ToInt32(ReadUint32(blob[4..8]));
        if version !in keyVersions {
          return Fail;
        }
        return Opened(aead, keyVersions[version], blob[HEADER_SIZE..]);
      }
      if |blob| < IV_SIZE + TAG_SIZE {
        return Fail;
      }
      return Opened(aead, key, blob);
    }
  }

  // ----- Whole histories -----

  datatype KeyOp = RotateTo(newKey: Bytes) | RestartProcess(random: Bytes)

  ghost predicate OpAllowed(k: KeyState, op: KeyOp) {
    match op
    case RotateTo(newKey) => |newKey| == KEY_SIZE && k.active < MAX_INT
    case RestartProcess(random) => |random| == KEY_SIZE
  }

  /** A rotation writes to the directory; a restart knows nothing but the directory, and may fail to load it. */
  ghost function After(start: Option<Keyring>, ops: seq<KeyOp>): Option<Keyring> {
    if |ops| == 0 then start
    else
      match After(start, ops[..|ops| - 1])
      case None => None
      case Some(r) =>
        match ops[|ops| - 1]
        case RotateTo(newKey) => Some(RotatedRing(r, newKey))
        case RestartProcess(random) => LoadKeys(r.disk, random)
  }

  ghost predicate HistoryAllowed(start: Option<Keyring>, ops: seq<KeyOp>) {
    |ops| > 0 ==>
      var before := ops[..|ops| - 1];
      && HistoryAllowed(start, before)
      && (After(start, before).Some? ==> OpAllowed(After(start, before).value.keys, ops[|ops| - 1]))
  }

  /** Along every history each restart loads, the versions stay 1..active, the working key is the active one, the
      directory holds them all, and no key is lost. */
  lemma {:induction false} HistoryKeepsKeys(r: Keyring, ops: seq<KeyOp>)
    requires KeyringOk(r) && HistoryAllowed(Some(r), ops)
    ensures After(Some(r), ops).Some? && KeyringOk(After(Some(r), ops).value)
    ensures Extends(r.keys, After(Some(r), ops).value.keys) && After(Some(r), ops).value.keys.active >= r.keys.active
  {
    if |ops| > 0 {
      hide KeyringOk, RotatedRing, LoadKeys;
      var p := ops[..|ops| - 1];
      HistoryKeepsKeys(r, p);
      var q := After(Some(r), p).value;
      match ops[|ops| - 1]
      case RotateTo(newKey) =>
        RotateKeepsRing(q, newKey);
        RingGrows(q, newKey);
      case RestartProcess(random) => LoadRestores(q, random);
    }
  }

  /** A rotation in a history makes its key the working one, under the next version, and keeps it under that version for
      good. */
  lemma {:induction false} RotationStays(r: Keyring, ops: seq<KeyOp>, i: nat)
    requires KeyringOk(r) && HistoryAllowed(Some(r), ops) && i < |ops| && ops[i].RotateTo?
    ensures After(Some(r), ops[..i]).Some? && After(Some(r), ops[..i + 1]).Some? && After(Some(r), ops).Some?
    ensures var before, made, now' := After(Some(r), ops[..i]).value.keys, After(Some(r), ops[..i + 1]).value,
        After(Some(r), ops).value.keys;
      var v := before.active + 1;
      && made.keys.active == v && made.keys.key == ops[i].newKey
      && made.keys.versions == before.versions[v := ops[i].newKey]
      && Versioned(v) in made.disk.files && made.disk.files[Versioned(v)] == ops[i].newKey
      && v in now'.versions && now'.versions[v] == ops[i].newKey
  {
    var upTo := ops[..i + 1];
    assert upTo[..i] == ops[..i] && ops[..|ops|] == ops;
    HistoryPrefix(Some(r), ops, i);
    HistoryPrefix(Some(r), ops, i + 1);
    HistoryKeepsKeys(r, ops[..i]);
    HistoryKeepsKeys(r, upTo);
    hide KeyringOk, LoadKeys, HistoryAllowed, DiskOk;
    KeysStay(r, ops, i + 1, |ops|);
  }

  lemma {:induction false} HistoryPrefix(start: Option<Keyring>, ops: seq<KeyOp>, i: nat)
    requires HistoryAllowed(start, ops) && i <= |ops|
    ensures HistoryAllowed(start, ops[..i])
    decreases |ops|
  {
    if i < |ops| {
      HistoryPrefix(start, ops[..|ops| - 1], i);
      assert ops[..|ops| - 1][..i] == ops[..i];
    } else {
      assert ops[..i] == ops;
    }
  }

  /** What a history holds at one point it holds at every later one. */
  lemma {:induction false} KeysStay(r: Keyring, ops: seq<KeyOp>, i: nat, j: nat)
    requires KeyringOk(r) && HistoryAllowed(Some(r), ops) && i <= j <= |ops|
    ensures After(Some(r), ops[..i]).Some? && After(Some(r), ops[..j]).Some?
    ensures Extends(After(Some(r), ops[..i]).value.keys, After(Some(r), ops[..j]).value.keys)
    decreases j
  {
    hide KeyringOk, LoadKeys, HistoryAllowed, RotatedRing;
    HistoryPrefix(Some(r), ops, i);
    HistoryPrefix(Some(r), ops, j);
    HistoryKeepsKeys(r, ops[..i]);
    if i < j {
      KeysStay(r, ops, i, j - 1);
      HistoryPrefix(Some(r), ops, j - 1);
      HistoryKeepsKeys(r, ops[..j - 1]);
      assert ops[..j][..j - 1] == ops[..j - 1];
      StepExtends(After(Some(r), ops[..j - 1]).value, Some(r), ops[..j]);
    }
  }
  lemma StepExtends(q: Keyring, start: Option<Keyring>, ops: seq<KeyOp>)
    requires |ops| > 0 && After(start, ops[..|ops| - 1]) == Some(q) && KeyringOk(q) && HistoryAllowed(start, ops)
    ensures After(start, ops).Some? && Extends(q.keys, After(start, ops).value.keys)
  {
    hide KeyringOk, RotatedRing, LoadKeys;
    match ops[|ops| - 1]
    case RotateTo(newKey) => RotateKeepsRing(q, newKey);
    case RestartProcess(random) => LoadRestores(q, random);
  }

  lemma RingGrows(r: Keyring, newKey: Bytes)
    ensures RotatedRing(r, newKey).keys.active == r.keys.active + 1
  {
  }

  /** From any directory without a registry that loads at all, every blob ever written, at whatever point of whatever
      history, decrypts at any later point of it. */
  lemma BlobsSurviveHistory(a: Aead, d: KeyDisk, random: Bytes, ops: seq<KeyOp>, later: seq<KeyOp>, iv: Bytes,
                            plain: Bytes)
    requires IsAead(a) && |iv| == IV_SIZE && |random| == KEY_SIZE
    requires d.registry.None? && LoadKeys(d, random).Some?
    requires HistoryAllowed(LoadKeys(d, random), ops) && HistoryAllowed(After(LoadKeys(d, random), ops), later)
    ensures var then' := After(LoadKeys(d, random), ops);
      var now' := After(then', later);
      then'.Some? && now'.Some?
        && DecryptBlob(a, now'.value.keys, EncryptBlob(a, then'.value.keys, iv, plain)) == Ok(plain)
  {
    FirstLoadOk(d, random);
    HistoryKeepsKeys(LoadKeys(d, random).value, ops);
    var r := After(LoadKeys(d, random), ops).value;
    HistoryKeepsKeys(r, later);
    BlobRoundTrip(a, r.keys, After(Some(r), later).value.keys, iv, plain);
  }
}
