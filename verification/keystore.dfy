/** The encrypted keystore: key files, metadata and the in-memory unlocked keys. */
module Keystore {
  import opened Types
  import opened Text

  /** The foreign primitives.  derive is privateKeyToAddress (None when it throws), seal and
      open are scrypt with AES-GCM; seal also takes the random salt and iv. */
  datatype Crypto = Crypto(
    derive: string -> Option<string>,
    seal: (string, string, nat) -> string,
    open: (string, string) -> Option<string>)

  /** Decryption inverts encryption under the same passphrase and fails under any other. */
  ghost predicate Sound(c: Crypto) {
    && (forall text, pass, salt :: c.open(c.seal(text, pass, salt), pass) == Some(text))
    && (forall text, pass, salt, other :: other != pass ==> c.open(c.seal(text, pass, salt), other) == None)
  }

  datatype KeyMeta = KeyMeta(address: string, profile: string, file: string)

  datatype KeyError = BadKey | AlreadyExists | NotFound | FileMissing | BadPassphrase | AddressMismatch

  datatype State = State(files: map<string, string>, disk: seq<KeyMeta>, keys: seq<KeyMeta>,
                         unlocked: map<string, string>)

  function AddressOf(c: Crypto, key: string): Option<string> {
    match c.derive(key)
    case Some(a) => Some(Lower(a))
    case None => None
  }

  function Slice(s: string, lo: nat, hi: nat): string
    requires lo <= hi
  {
    if hi <= |s| then s[lo..hi] else if lo <= |s| then s[lo..] else ""
  }

  function FileName(address: string, profile: string): string {
    Slice(address, 2, 10) + "-" + profile + ".enc"
  }

  predicate Holds(keys: seq<KeyMeta>, address: string) {
    exists k | 0 <= k < |keys| :: keys[k].address == address
  }

  function Find(keys: seq<KeyMeta>, address: string): Option<KeyMeta> {
    if keys == [] then None
    else if keys[0].address == address then Some(keys[0])
    else Find(keys[1..], address)
  }

  function ImportResult(s: State, c: Crypto, key: string): Result<string, KeyError> {
    var a := AddressOf(c, key);
    if a.None? then Err(BadKey) else if Holds(s.keys, a.value) then Err(AlreadyExists) else Ok(a.value)
  }

  predicate IsKeyText(key: string) { |key| >= 2 && key[..2] == "0x" }

  /** The state after an import, which leaves a refused import's state alone. */
  function Import(s: State, c: Crypto, key: string, pass: string, profile: string, salt: nat): State
    requires IsKeyText(key)
  {
    var r := ImportResult(s, c, key);
    if r.Err? then s
    else
      var meta := KeyMeta(r.value, profile, FileName(r.value, profile));
      s.(files := s.files[meta.file := c.seal(key[2..], pass, salt)], keys := s.keys + [meta], disk := s.keys + [meta])
  }

  function UnlockResult(s: State, c: Crypto, address: string, pass: string): Result<string, KeyError> {
    var meta := Find(s.keys, Lower(address));
    if meta.None? then Err(NotFound)
    else if meta.value.file !in s.files then Err(FileMissing)
    else
      var text := c.open(s.files[meta.value.file], pass);
      if text.None? then Err(BadPassphrase)
      else if AddressOf(c, "0x" + text.value) != Some(Lower(address)) then Err(AddressMismatch)
      else Ok("0x" + text.value)
  }

  function Unlock(s: State, c: Crypto, address: string, pass: string): State {
    match UnlockResult(s, c, address, pass)
    case Ok(key) => s.(unlocked := s.unlocked[Lower(address) := key])
    case Err(_) => s
  }

  function Lock(s: State, address: string): State {
    s.(unlocked := s.unlocked - {Lower(address)})
  }

  function Restart(s: State): State {
    s.(keys := s.disk, unlocked := map[])
  }

  function UnlockedKey(s: State, address: string): Option<string> {
    if Lower(address) in s.unlocked then Some(s.unlocked[Lower(address)]) else None
  }

  /** The first entry for the address. */
  ghost predicate FirstKey(keys: seq<KeyMeta>, address: string, k: int) {
    0 <= k < |keys| && keys[k].address == address && forall j :: 0 <= j < k ==> keys[j].address != address
  }

  lemma {:induction false} FindIsFirst(keys: seq<KeyMeta>, address: string)
    ensures Find(keys, address).None? <==> forall k :: 0 <= k < |keys| ==> keys[k].address != address
    ensures forall k :: FirstKey(keys, address, k) ==> Find(keys, address) == Some(keys[k])
  {
    if keys != [] {
      FindIsFirst(keys[1..], address);
      forall k | FirstKey(keys, address, k) ensures Find(keys, address) == Some(keys[k]) {
        if k > 0 {
          assert keys[0].address != address && keys[1..][k - 1] == keys[k];
          assert forall j :: 0 <= j < k - 1 ==> keys[1..][j] == keys[j + 1];
          assert FirstKey(keys[1..], address, k - 1);
        }
      }
      assert forall k :: 0 < k < |keys| ==> keys[k] == keys[1..][k - 1];
    }
  }

  /** What unlocking the address from this file with this passphrase comes to. */
  ghost predicate Opens(c: Crypto, files: map<string, string>, file: string, address: string, pass: string,
                        r: Result<string, KeyError>) {
    if file !in files then r == Err(FileMissing)
    else match c.open(files[file], pass)
      case None => r == Err(BadPassphrase)
      case Some(text) =>
        var derived := c.derive("0x" + text);
        if derived.Some? && Lower(derived.value) == address then r == Ok("0x" + text) else r == Err(AddressMismatch)
  }

  class EncryptedKeystore {
    const crypto: Crypto
    var files: map<string, string>
    var disk: seq<KeyMeta>
    var keys: seq<KeyMeta>
    var unlocked: map<string, string>

    ghost function View(): State
      reads this
    {
      State(files, disk, keys, unlocked)
    }

    constructor (crypto: Crypto, files: map<string, string>, disk: seq<KeyMeta>)
      ensures this.crypto == crypto && View() == State(files, disk, disk, map[])
    {
      this.crypto := crypto;
      this.files, this.disk := files, disk;
      this.keys := disk;
      unlocked := map[];
    }

    method ImportKey(key: string, pass: string, profile: string, salt: nat) returns (r: Result<string, KeyError>)
      requires IsKeyText(key)
      modifies this
      ensures r == ImportResult(old(View()), crypto, key)
      ensures View() == Import(old(View()), crypto, key, pass, profile, salt)
      ensures r == Err(BadKey) <==> crypto.derive(key).None?
      ensures r == Err(AlreadyExists) <==>
                crypto.derive(key).Some? &&
                exists k :: 0 <= k < |old(keys)| && old(keys)[k].address == Lower(crypto.derive(key).value)
      ensures r.Err? ==> View() == old(View())
      ensures r.Ok? ==>
                r.value == Lower(crypto.derive(key).value) && unlocked == old(unlocked) && disk == keys &&
                exists file :: keys == old(keys) + [KeyMeta(r.value, profile, file)] &&
                               files == old(files)[file := crypto.seal(key[2..], pass, salt)] &&
                               (|r.value| >= 10 ==> file == r.value[2..10] + "-" + profile + ".enc")
    {
      var derived := crypto.derive(key);
      if derived.None? { return Err(BadKey); }
      var address := Lower(derived.value);
      if exists k | 0 <= k < |keys| :: keys[k].address == address { return Err(AlreadyExists); }
      var ciphertext := crypto.seal(key[2..], pass, salt);
      var fileName := FileName(address, profile);
      files := files[fileName := ciphertext];
      keys := keys + [KeyMeta(address, profile, fileName)];
      disk := keys;
      assert keys == old(keys) + [KeyMeta(address, profile, fileName)];
      return Ok(address);
    }

    method UnlockKey(address: string, pass: string) returns (r: Result<string, KeyError>)
      modifies this
      ensures r == UnlockResult(old(View()), crypto, address, pass)
      ensures View() == Unlock(old(View()), crypto, address, pass)
      ensures files == old(files) && disk == old(disk) && keys == old(keys)
      ensures unlocked == if r.Ok? then old(unlocked)[Lower(address) := r.value] else old(unlocked)
      ensures r == Err(NotFound) <==> forall k :: 0 <= k < |keys| ==> keys[k].address != Lower(address)
      ensures forall k :: FirstKey(keys, Lower(address), k) ==>
                Opens(crypto, files, keys[k].file, Lower(address), pass, r)
    {
      var normalized := Lower(address);
      FindIsFirst(keys, normalized);
      var meta := Find(keys, normalized);
      if meta.None? { return Err(NotFound); }
      if meta.value.file !in files { return Err(FileMissing); }
      var decrypted := crypto.open(files[meta.value.file], pass);
      if decrypted.None? { return Err(BadPassphrase); }
      var key := "0x" + decrypted.value;
      var derived := crypto.derive(key);
      if derived.None? || Lower(derived.value) != normalized { return Err(AddressMismatch); }
      unlocked := unlocked[normalized := key];
      return Ok(key);
    }

    method LockKey(address: string)
      modifies this`unlocked
      ensures View() == Lock(old(View()), address)
      ensures forall a :: a in unlocked <==> a in old(unlocked) && a != Lower(address)
      ensures forall a :: a in unlocked ==> unlocked[a] == old(unlocked)[a]
    {
      unlocked := unlocked - {Lower(address)};
    }

    method GetUnlockedKey(address: string) returns (key: Option<string>)
      ensures key == UnlockedKey(View(), address)
      ensures key == if Lower(address) in unlocked then Some(unlocked[Lower(address)]) else None
    {
      var normalized := Lower(address);
      key := if normalized in unlocked then Some(unlocked[normalized]) else None;
    }
  }

  // ---- runs ----

  datatype Operation =
    | OpImport(key: string, pass: string, profile: string, salt: nat)
    | OpUnlock(address: string, pass: string)
    | OpLock(address: string)
    | OpRestart

  predicate KeyTexts(run: seq<Operation>) {
    forall k | 0 <= k < |run| :: run[k].OpImport? ==> IsKeyText(run[k].key)
  }

  function Apply(s: State, c: Crypto, op: Operation): State
    requires op.OpImport? ==> IsKeyText(op.key)
  {
    match op
    case OpImport(key, pass, profile, salt) => Import(s, c, key, pass, profile, salt)
    case OpUnlock(address, pass) => Unlock(s, c, address, pass)
    case OpLock(address) => Lock(s, address)
    case OpRestart => Restart(s)
  }

  function After(s: State, c: Crypto, run: seq<Operation>): State
    requires KeyTexts(run)
    decreases run
  {
    if run == [] then s
    else
      assert KeyTexts(run[1..]) by { Rest(run); }
      After(Apply(s, c, run[0]), c, run[1..])
  }

  lemma Rest(run: seq<Operation>)
    requires KeyTexts(run) && run != []
    ensures KeyTexts(run[1..])
  {
    assert forall k | 0 <= k < |run| - 1 :: run[1..][k] == run[k + 1];
  }

  /** Whether the operation writes the key file of that name. */
  predicate Writes(s: State, c: Crypto, op: Operation, file: string) {
    op.OpImport? && ImportResult(s, c, op.key).Ok? && FileName(ImportResult(s, c, op.key).value, op.profile) == file
  }

  predicate EverWrites(s: State, c: Crypto, run: seq<Operation>, file: string)
    requires KeyTexts(run)
    decreases run
  {
    run != [] &&
    (assert KeyTexts(run[1..]) by { Rest(run); }
     Writes(s, c, run[0], file) || EverWrites(Apply(s, c, run[0]), c, run[1..], file))
  }

  /** Every unlocked key derives to the address it is stored under. */
  ghost predicate UnlockedDerive(s: State, c: Crypto) {
    forall a :: a in s.unlocked ==> AddressOf(c, s.unlocked[a]) == Some(a)
  }

  /** Holds over every run, from any state, whatever the cryptography does. */
  lemma {:induction false} UnlockedKeysAlwaysDerive(s: State, c: Crypto, run: seq<Operation>)
    requires UnlockedDerive(s, c) && KeyTexts(run)
    ensures UnlockedDerive(After(s, c, run), c)
    decreases run
  {
    if run != [] {
      Rest(run);
      assert UnlockedDerive(Apply(s, c, run[0]), c);
      UnlockedKeysAlwaysDerive(Apply(s, c, run[0]), c, run[1..]);
    }
  }

  /** The operation takes the key of the lower-case address out of memory. */
  predicate Forgets(op: Operation, a: string) {
    op.OpRestart? || (op.OpLock? && Lower(op.address) == a)
  }

  /** In every run a key in memory was unlocked in it, and not locked or lost by a restart since. */
  lemma {:induction false} UnlockedSinceItsUnlocking(s: State, c: Crypto, run: seq<Operation>, a: string)
    requires KeyTexts(run) && a in After(s, c, run).unlocked
    ensures (a in s.unlocked && forall k :: 0 <= k < |run| ==> !Forgets(run[k], a)) ||
            exists k :: 0 <= k < |run| && run[k].OpUnlock? && Lower(run[k].address) == a &&
                        forall m :: k < m < |run| ==> !Forgets(run[m], a)
    decreases run
  {
    if run != [] {
      Rest(run);
      var t, rest := Apply(s, c, run[0]), run[1..];
      UnlockedSinceItsUnlocking(t, c, rest, a);
      assert forall m :: 0 < m < |run| ==> run[m] == rest[m - 1];
      if a in t.unlocked && forall k :: 0 <= k < |rest| ==> !Forgets(rest[k], a) {
        assert a in s.unlocked || (run[0].OpUnlock? && Lower(run[0].address) == a);
      } else {
        var k :| 0 <= k < |rest| && rest[k].OpUnlock? && Lower(rest[k].address) == a &&
                 forall m :: k < m < |rest| ==> !Forgets(rest[m], a);
        assert run[k + 1] == rest[k];
      }
    }
  }

  lemma {:induction false} FindIsStable(keys: seq<KeyMeta>, more: seq<KeyMeta>, address: string)
    requires Find(keys, address).Some?
    ensures Find(keys + more, address) == Find(keys, address)
    ensures Holds(keys, address)
  {
    if keys[0].address != address {
      assert (keys + more)[1..] == keys[1..] + more;
      FindIsStable(keys[1..], more, address);
      var k :| 0 <= k < |keys| - 1 && keys[1..][k].address == address;
      assert keys[k + 1].address == address;
    } else {
      assert keys[0].address == address;
    }
  }

  lemma {:induction false} FindNew(keys: seq<KeyMeta>, meta: KeyMeta)
    requires !Holds(keys, meta.address)
    ensures Find(keys + [meta], meta.address) == Some(meta)
  {
    if keys != [] {
      assert keys[0].address != meta.address;
      assert forall k | 0 <= k < |keys| - 1 :: keys[1..][k] == keys[k + 1];
      assert (keys + [meta])[1..] == keys[1..] + [meta];
      FindNew(keys[1..], meta);
    }
  }

  /** Key a is registered under file. */
  ghost predicate Registered(s: State, a: string, file: string) {
    s.disk == s.keys && Find(s.keys, a).Some? && Find(s.keys, a).value.file == file && file in s.files
  }

  /** The file holds a key of another address. */
  ghost predicate Overwritten(s: State, c: Crypto, a: string, file: string) {
    exists key, pass, salt :: file in s.files && IsKeyText(key) && s.files[file] == c.seal(key[2..], pass, salt)
                              && AddressOf(c, key) != Some(a)
  }

  lemma StepKeepsRegistered(s: State, c: Crypto, op: Operation, a: string, file: string)
    requires Registered(s, a, file) && (op.OpImport? ==> IsKeyText(op.key))
    ensures Registered(Apply(s, c, op), a, file)
    ensures Writes(s, c, op, file) ==> Overwritten(Apply(s, c, op), c, a, file)
    ensures !Writes(s, c, op, file) ==> Apply(s, c, op).files[file] == s.files[file]
  {
    FindIsStable(s.keys, [], a);
    if op.OpImport? && ImportResult(s, c, op.key).Ok? {
      var b := ImportResult(s, c, op.key).value;
      FindIsStable(s.keys, [KeyMeta(b, op.profile, FileName(b, op.profile))], a);
      assert AddressOf(c, op.key) != Some(a);
    }
  }

  lemma {:induction false} RunKeepsFile(s: State, c: Crypto, run: seq<Operation>, a: string, file: string)
    requires Registered(s, a, file) && KeyTexts(run)
    ensures Registered(After(s, c, run), a, file)
    ensures !EverWrites(s, c, run, file) ==> After(s, c, run).files[file] == s.files[file]
    ensures EverWrites(s, c, run, file) || Overwritten(s, c, a, file) ==> Overwritten(After(s, c, run), c, a, file)
    decreases run
  {
    if run != [] {
      Rest(run);
      StepKeepsRegistered(s, c, run[0], a, file);
      RunKeepsFile(Apply(s, c, run[0]), c, run[1..], a, file);
    }
  }

  lemma OverwrittenCannotUnlock(s: State, c: Crypto, a: string, file: string, pass: string)
    requires Sound(c) && Registered(s, a, file) && Overwritten(s, c, a, file) && Lower(a) == a
    ensures UnlockResult(s, c, a, pass).Err?
  {
    var key, p, salt :| IsKeyText(key) && s.files[file] == c.seal(key[2..], p, salt) && AddressOf(c, key) != Some(a);
    assert "0x" + key[2..] == key;
    if p == pass { assert c.open(s.files[file], pass) == Some(key[2..]); }
  }

  /** An imported key unlocks with its passphrase, after any further operations and restarts,
      exactly when no other import wrote the same file name; and then it is the identical key. */
  lemma ImportedKeyUnlocksIff(s: State, c: Crypto, key: string, pass: string, profile: string, salt: nat,
                              run: seq<Operation>)
    requires Sound(c) && IsKeyText(key) && KeyTexts(run) && ImportResult(s, c, key).Ok?
    ensures var a := ImportResult(s, c, key).value;
      var imported := Import(s, c, key, pass, profile, salt);
      var later := After(imported, c, run);
      && (UnlockResult(later, c, a, pass).Ok? <==> !EverWrites(imported, c, run, FileName(a, profile)))
      && (UnlockResult(later, c, a, pass).Ok? ==>
            UnlockedKey(Unlock(later, c, a, pass), a) == Some(key))
  {
    var a := ImportResult(s, c, key).value;
    var file := FileName(a, profile);
    var imported := Import(s, c, key, pass, profile, salt);
    FindNew(s.keys, KeyMeta(a, profile, file));
    RunKeepsFile(imported, c, run, a, file);
    LowerTwice(c.derive(key).value);
    assert "0x" + key[2..] == key;
    if EverWrites(imported, c, run, file) {
      OverwrittenCannotUnlock(After(imported, c, run), c, a, file, pass);
    }
  }

  lemma LowerTwice(s: string)
    ensures Lower(Lower(s)) == Lower(s)
  {
  }

  /** Two address and profile pairs share a file exactly when the profiles are equal and the
      addresses agree in their first eight hexadecimal digits. */
  lemma FileNamesCollideIff(a: string, b: string, p: string, q: string)
    requires IsAddress(a) && IsAddress(b)
    ensures FileName(a, p) == FileName(b, q) <==> a[2..10] == b[2..10] && p == q
  {
    var f, g := FileName(a, p), FileName(b, q);
    assert f[..8] == a[2..10] && g[..8] == b[2..10];
    assert f[9..|f| - 4] == p && g[9..|g| - 4] == q;
  }
}
