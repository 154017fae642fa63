/** The skill registry: four gates in front of a table of names, and a soft delete. */
module Registry {
  import opened Types
  import Scanner
  import Text

  datatype FileEntry = FileEntry(path: string, sha256: string)

  /** What the manifest hash covers; rest stands for the fields the registry does not read. */
  datatype Body = Body(name: string, publisherName: string, publisherAddress: string, files: seq<FileEntry>,
                       rest: string)

  datatype Manifest = Manifest(body: Body, signature: string)

  /** Schema validation, hashing, signature recovery and the files as they are when they are read.
      Recovery fails on a malformed signature. */
  datatype World = World(schemaErrors: Manifest -> seq<string>, hash: Body -> string,
                         recover: (string, string) -> Option<string>, sha256: string -> string, files: Scanner.World)

  datatype Status = Active | Revoked

  datatype Row = Row(manifest: Manifest, manifestHash: string, status: Status, registeredAt: int,
                     revokedAt: Option<int>)

  datatype Refusal =
    | SchemaInvalid(errors: seq<string>)
    | SignatureInvalid
    | FileHashMismatch(paths: seq<string>)
    | ScanFailed(findings: seq<Scanner.Finding>)
    | Duplicate

  datatype Outcome = Registered(hash: string) | Refused(why: Refusal) | Threw

  type Table = map<string, Row>

  // ---- the gates ----

  predicate Intact(w: World, e: FileEntry) {
    w.files.read(e.path).Some? && w.sha256(w.files.read(e.path).value) == e.sha256
  }

  function Mismatched(w: World, files: seq<FileEntry>): (r: seq<string>)
    ensures r == [] <==> forall e :: e in files ==> Intact(w, e)
  {
    if files == [] then []
    else Mismatched(w, files[..|files| - 1]) +
         if Intact(w, files[|files| - 1]) then [] else [files[|files| - 1].path]
  }

  lemma {:induction false} MismatchedIsExact(w: World, files: seq<FileEntry>)
    ensures forall p :: p in Mismatched(w, files) <==> exists e :: e in files && e.path == p && !Intact(w, e)
  {
    if files != [] {
      var n := |files| - 1;
      MismatchedIsExact(w, files[..n]);
      assert forall e :: e in files <==> e in files[..n] || e == files[n];
    }
  }

  function Paths(files: seq<FileEntry>): seq<string> { seq(|files|, i requires 0 <= i < |files| => files[i].path) }

  predicate SignedByPublisher(w: World, m: Manifest) {
    w.recover(w.hash(m.body), m.signature).Some? &&
    Text.Lower(w.recover(w.hash(m.body), m.signature).value) == Text.Lower(m.body.publisherAddress)
  }

  /** The manifest is valid, signed by its publisher, and every file it lists is readable, is the
      one it names and is free of error findings. */
  ghost predicate GatesPass(w: World, m: Manifest) {
    && w.schemaErrors(m) == []
    && SignedByPublisher(w, m)
    && (forall e :: e in m.body.files ==> Intact(w, e) && Scanner.Clean(w.files, e.path))
  }

  function NewRow(w: World, m: Manifest, now: int): Row { Row(m, w.hash(m.body), Active, now, None) }

  /** The table after a registration; a name that is in the table, active or revoked, stays. */
  ghost function Register(t: Table, w: World, m: Manifest, now: int): Table {
    if GatesPass(w, m) && m.body.name !in t then t[m.body.name := NewRow(w, m, now)] else t
  }

  function Revoke(t: Table, name: string, now: int): Table {
    if name in t && t[name].status == Active then t[name := t[name].(status := Revoked, revokedAt := Some(now))] else t
  }

  lemma ScanGate(w: World, files: seq<FileEntry>)
    ensures Scanner.Passes(w.files, Paths(files)) <==> forall e :: e in files ==> Scanner.Clean(w.files, e.path)
  {
    hide Scanner.Clean, Scanner.Passes;
    Scanner.PassesIffEveryFileIsClean(w.files, Paths(files));
    assert forall i :: 0 <= i < |files| ==> Paths(files)[i] == files[i].path;
    forall e | e in files ensures e.path in Paths(files) {
      var i :| 0 <= i < |files| && files[i] == e;
      assert Paths(files)[i] == e.path;
    }
  }

  method VerifyFileHashes(w: World, files: seq<FileEntry>) returns (mismatches: seq<string>)
    ensures mismatches == Mismatched(w, files)
    ensures forall p :: p in mismatches <==>
      exists e :: e in files && e.path == p &&
                  (w.files.read(p).None? || w.sha256(w.files.read(p).value) != e.sha256)
  {
    MismatchedIsExact(w, files);
    mismatches := [];
    for i := 0 to |files|
      invariant mismatches == Mismatched(w, files[..i])
    {
      assert files[..i + 1][..i] == files[..i];
      var content := w.files.read(files[i].path);
      if content.None? {
        mismatches := mismatches + [files[i].path];
      } else if w.sha256(content.value) != files[i].sha256 {
        mismatches := mismatches + [files[i].path];
      }
    }
    assert files[..|files|] == files;
  }

  class SkillRegistryService {
    var rows: Table

    constructor ()
      ensures rows == map[]
    {
      rows := map[];
    }

    method RegisterSkill(w: World, m: Manifest, now: int) returns (o: Outcome)
      modifies this
      ensures rows == Register(old(rows), w, m, now)
      ensures rows ==
                if o.Registered? then old(rows)[m.body.name := Row(m, w.hash(m.body), Active, now, None)] else old(rows)
      ensures o.Registered? <==> GatesPass(w, m) && m.body.name !in old(rows)
      ensures o.Registered? ==> o.hash == w.hash(m.body)
      ensures (o.Refused? && o.why.SchemaInvalid?) <==> w.schemaErrors(m) != []
      ensures o.Refused? ==>
                match o.why
                case SchemaInvalid(errors) => errors == w.schemaErrors(m)
                case FileHashMismatch(paths) => paths == Mismatched(w, m.body.files)
                case ScanFailed(findings) => findings == Scanner.Findings(w.files, Paths(m.body.files))
                case _ => true
      ensures o == Refused(SignatureInvalid) <==>
                w.schemaErrors(m) == [] && w.recover(w.hash(m.body), m.signature).Some? &&
                Text.Lower(w.recover(w.hash(m.body), m.signature).value) != Text.Lower(m.body.publisherAddress)
      ensures (o.Refused? && o.why.FileHashMismatch?) <==>
                w.schemaErrors(m) == [] && SignedByPublisher(w, m) && exists e :: e in m.body.files && !Intact(w, e)
      ensures (o.Refused? && o.why.ScanFailed?) <==>
                w.schemaErrors(m) == [] && SignedByPublisher(w, m) &&
                (forall e :: e in m.body.files ==> Intact(w, e)) &&
                exists e :: e in m.body.files && !Scanner.Clean(w.files, e.path)
      ensures o == Refused(Duplicate) <==>
                GatesPass(w, m) && m.body.name in old(rows) && old(rows)[m.body.name].status == Active
      ensures o == Threw <==>
                (w.schemaErrors(m) == [] && w.recover(w.hash(m.body), m.signature).None?) ||
                (GatesPass(w, m) && m.body.name in old(rows) && old(rows)[m.body.name].status == Revoked)
    {
      hide Scanner.Clean, Scanner.Passes, Intact, Scanner.Findings;
      var name := m.body.name;
      var errors := w.schemaErrors(m);
      if errors != [] { return Refused(SchemaInvalid(errors)); }
      var hash := w.hash(m.body);
      var signer := w.recover(hash, m.signature);
      if signer.None? { return Threw; }
      if Text.Lower(signer.value) != Text.Lower(m.body.publisherAddress) { return Refused(SignatureInvalid); }
      var mismatches := VerifyFileHashes(w, m.body.files);
      MismatchedIsExact(w, m.body.files);
      if mismatches != [] {
        assert mismatches[0] in mismatches;
        return Refused(FileHashMismatch(mismatches));
      }
      var report := Scanner.ScanFiles(w.files, Paths(m.body.files));
      ScanGate(w, m.body.files);
      assert report.passed <==> Scanner.Passes(w.files, Paths(m.body.files)) by { Passing(w, m.body.files, report); }
      if !report.passed { return Refused(ScanFailed(report.findings)); }
      var duplicate := IsRegistered(name);
      if duplicate { return Refused(Duplicate); }
      if name in rows { return Threw; }
      rows := rows[name := Row(m, hash, Active, now, None)];
      return Registered(hash);
    }

    method Get(name: string) returns (r: Option<Row>)
      ensures r == if name in rows then Some(rows[name]) else None
    {
      return if name in rows then Some(rows[name]) else None;
    }

    /** The active rows, each once, by registration time. */
    method List() returns (names: seq<string>)
      ensures forall n :: n in names <==> n in rows && rows[n].status == Active
      ensures forall i, k :: 0 <= i < k < |names| ==> names[i] != names[k]
      ensures forall i, k :: 0 <= i < k < |names| && names[i] in rows && names[k] in rows ==>
                rows[names[i]].registeredAt <= rows[names[k]].registeredAt
    {
      names := [];
      var todo := set n | n in rows && rows[n].status == Active;
      while todo != {}
        invariant todo <= rows.Keys
        invariant forall n :: n in names ==> n in rows && n !in todo
        invariant forall n :: n in rows && rows[n].status == Active <==> n in names || n in todo
        invariant forall i, k :: 0 <= i < k < |names| ==> names[i] != names[k]
        invariant forall i, k :: 0 <= i < k < |names| ==> rows[names[i]].registeredAt <= rows[names[k]].registeredAt
        invariant forall n, u :: n in names && u in todo ==> rows[n].registeredAt <= rows[u].registeredAt
        decreases |todo|
      {
        OldestExists(rows, todo);
        var name :| name in todo && forall u :: u in todo ==> rows[name].registeredAt <= rows[u].registeredAt;
        assert name in rows && rows[name].status == Active && name !in names;
        names := names + [name];
        todo := todo - {name};
      }
    }

    method RevokeSkill(name: string, now: int) returns (changed: bool)
      modifies this
      ensures rows == Revoke(old(rows), name, now)
      ensures changed <==> name in old(rows) && old(rows)[name].status == Active
      ensures rows ==
                if changed then old(rows)[name := old(rows)[name].(status := Revoked, revokedAt := Some(now))]
                else old(rows)
    {
      changed := name in rows && rows[name].status == Active;
      if changed { rows := rows[name := rows[name].(status := Revoked, revokedAt := Some(now))]; }
    }

    method IsRegistered(name: string) returns (r: bool)
      ensures r <==> name in rows && rows[name].status == Active
    {
      return name in rows && rows[name].status == Active;
    }
  }

  lemma Passing(w: World, files: seq<FileEntry>, report: Scanner.Report)
    requires report.findings == Scanner.Findings(w.files, Paths(files))
    requires report.passed <==> forall f :: f in report.findings ==> f.severity != Scanner.Error
    ensures report.passed <==> Scanner.Passes(w.files, Paths(files))
  {
  }

  lemma {:induction false} OldestExists(rows: Table, names: set<string>)
    requires names != {} && names <= rows.Keys
    ensures exists n :: n in names && forall u :: u in names ==> rows[n].registeredAt <= rows[u].registeredAt
    decreases |names|
  {
    var first :| first in names;
    var rest := names - {first};
    if rest != {} {
      OldestExists(rows, rest);
      var n :| n in rest && forall u :: u in rest ==> rows[n].registeredAt <= rows[u].registeredAt;
      var best := if rows[n].registeredAt <= rows[first].registeredAt then n else first;
      assert forall u :: u in names ==> rows[best].registeredAt <= rows[u].registeredAt;
    } else {
      assert names == rest + {first};
    }
  }

  // ---- lifecycle over runs ----

  datatype Operation = OpRegister(world: World, manifest: Manifest) | OpRevoke(name: string)

  datatype Timed = At(now: int, op: Operation)

  ghost function Apply(t: Table, e: Timed): Table {
    match e.op
    case OpRegister(w, m) => Register(t, w, m, e.now)
    case OpRevoke(name) => Revoke(t, name, e.now)
  }

  ghost function After(run: seq<Timed>): Table {
    if run == [] then map[] else Apply(After(run[..|run| - 1]), run[|run| - 1])
  }

  /** The only thing that ever happens to a row: from active to revoked, once. */
  ghost predicate Progress(a: Row, b: Row) {
    a == b || (a.status == Active && b == a.(status := Revoked, revokedAt := b.revokedAt))
  }

  /** A name is inserted at most once, goes from active to revoked at most once and never back, and
      its manifest, hash and registration time never change. */
  lemma {:induction false} RowsOnlyProgress(run: seq<Timed>, n: nat, name: string)
    requires n <= |run| && name in After(run[..n])
    ensures name in After(run) && Progress(After(run[..n])[name], After(run)[name])
  {
    hide GatesPass;
    if n == |run| {
      assert run[..n] == run;
    } else {
      var before := run[..|run| - 1];
      assert before[..n] == run[..n];
      RowsOnlyProgress(before, n, name);
    }
  }

  /** Step k of the run registered the name with this manifest and every gate passed. */
  ghost predicate RegisteredAt(run: seq<Timed>, k: nat, name: string, row: Row) {
    k < |run| && run[k].op.OpRegister? && run[k].op.manifest == row.manifest && row.manifest.body.name == name &&
    GatesPass(run[k].op.world, row.manifest) && row.manifestHash == run[k].op.world.hash(row.manifest.body) &&
    row.registeredAt == run[k].now
  }

  /** Every row goes back to a registration that passed all four gates. */
  lemma {:induction false} EveryRowPassedTheGates(run: seq<Timed>, name: string)
    requires name in After(run)
    ensures exists k :: RegisteredAt(run, k, name, After(run)[name])
  {
    hide GatesPass;
    var before := run[..|run| - 1];
    var t, e := After(before), run[|run| - 1];
    if name in t {
      EveryRowPassedTheGates(before, name);
      var k :| RegisteredAt(before, k, name, t[name]);
      assert RegisteredAt(run, k, name, After(run)[name]);
    } else {
      assert RegisteredAt(run, |run| - 1, name, After(run)[name]);
    }
  }

  /** A registration that passes the gates after some run takes effect exactly when no earlier
      registration of the name did; revoking the name does not free it. */
  lemma RegistersIffNeverRegistered(run: seq<Timed>, w: World, m: Manifest, now: int)
    requires GatesPass(w, m)
    ensures var t := After(run);
      (Register(t, w, m, now) != t <==> forall k, row :: !RegisteredAt(run, k, m.body.name, row))
  {
    var t := After(run);
    if m.body.name in t {
      EveryRowPassedTheGates(run, m.body.name);
    } else {
      forall k, row ensures !RegisteredAt(run, k, m.body.name, row) {
        if RegisteredAt(run, k, m.body.name, row) { RegisteredIsThere(run, k, m.body.name, row); }
      }
      assert m.body.name in Register(t, w, m, now);
    }
  }

  lemma RegisteredIsThere(run: seq<Timed>, k: nat, name: string, row: Row)
    requires RegisteredAt(run, k, name, row)
    ensures name in After(run)
  {
    hide GatesPass;
    assert run[..k + 1][..k] == run[..k];
    assert name in After(run[..k + 1]);
    RowsOnlyProgress(run, k + 1, name);
  }

  /** Against docs/development/skill-registry.md:224-225: whatever manifest is registered and
      revoked, any further manifest of that name that passes every gate leaves the revoked row. */
  lemma RevokingDoesNotFreeTheName(w: World, m: Manifest, w': World, m': Manifest, first: int, second: int, third: int)
    requires GatesPass(w, m) && GatesPass(w', m') && m'.body.name == m.body.name
    ensures var t := After([At(first, OpRegister(w, m)), At(second, OpRevoke(m.body.name))]);
      m.body.name in t && t[m.body.name].status == Revoked && Register(t, w', m', third) == t
  {
    hide GatesPass;
    var run := [At(first, OpRegister(w, m)), At(second, OpRevoke(m.body.name))];
    assert run[..1] == [At(first, OpRegister(w, m))] && run[..1][..0] == [];
    assert After(run[..1]) == map[m.body.name := NewRow(w, m, first)];
  }
}
