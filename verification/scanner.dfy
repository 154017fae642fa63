/** The static scan of a skill's source files. */
module Scanner {
  import opened Types

  datatype Severity = Error | Warning

  datatype Rule = Rule(id: string, patterns: seq<string>, severity: Severity, message: string)

  datatype Finding = Finding(file: string, line: nat, rule: string, severity: Severity, message: string)

  datatype Report = Report(passed: bool, findings: seq<Finding>)

  /** The files as they are read, None when reading fails, and the regular-expression engine, which
      also knows the patterns that ignore letter case. */
  datatype World = World(read: string -> Option<string>, test: (string, string) -> bool)

  const SCAN_RULES: seq<Rule> := [
    Rule("dynamic_eval", [@"\beval\s*\(", @"\bnew\s+Function\s*\("], Error, "Dynamic code execution detected"),
    Rule("child_process",
         [@"child_process", @"\bexec\s*\(", @"\bspawn\s*\(", @"\bexecFile\s*\(", @"\bexecSync\s*\(",
          @"\bspawnSync\s*\("],
         Error, "Process spawning detected"),
    Rule("network_access",
         [@"\bfetch\s*\(", @"\brequire\s*\(\s*['""]https?['""]\s*\)", @"\bhttp\.", @"\bhttps\.", @"\bnet\.",
          @"\bdgram\.", @"\bWebSocket\b", @"\bXMLHttpRequest\b"],
         Error, "Network access detected"),
    Rule("fs_write",
         [@"\bwriteFileSync\b", @"\bwriteFile\b", @"\bmkdirSync\b", @"\bunlinkSync\b", @"\brmSync\b"],
         Warning, "Filesystem write operation detected"),
    Rule("obfuscation",
         [@"\\x[0-9a-f]{2}\\x[0-9a-f]{2}\\x[0-9a-f]{2}", @"\batob\s*\(", @"Buffer\.from\s*\([^,]+,\s*['""]base64['""]"],
         Warning, "Potentially obfuscated code detected")]

  function ReadError(file: string): Finding {
    Finding(file, 0, "file_read_error", Error, "Could not read file: " + file)
  }

  function FindingOf(file: string, line: nat, rule: Rule): Finding {
    Finding(file, line, rule.id, rule.severity, rule.message)
  }

  /** content.split("\n") */
  function Lines(content: string): (r: seq<string>)
    ensures |r| > 0
  {
    if content == "" then [""]
    else
      var before := Lines(content[..|content| - 1]);
      var last := content[|content| - 1];
      if last == '\n' then before + [""] else before[|before| - 1 := before[|before| - 1] + [last]]
  }

  predicate Fires(w: World, rule: Rule, line: string) {
    exists k | 0 <= k < |rule.patterns| :: w.test(rule.patterns[k], line)
  }

  // ---- the report, declaratively: one finding per file, line and rule that fires ----

  function LineFindings(w: World, rules: seq<Rule>, file: string, n: nat, line: string): seq<Finding> {
    if rules == [] then []
    else
      var last := rules[|rules| - 1];
      LineFindings(w, rules[..|rules| - 1], file, n, line) +
      if Fires(w, last, line) then [FindingOf(file, n, last)] else []
  }

  function LinesFindings(w: World, file: string, lines: seq<string>): seq<Finding> {
    if lines == [] then []
    else
      LinesFindings(w, file, lines[..|lines| - 1]) +
      LineFindings(w, SCAN_RULES, file, |lines|, lines[|lines| - 1])
  }

  function FileFindings(w: World, file: string): seq<Finding> {
    match w.read(file)
    case None => [ReadError(file)]
    case Some(content) => LinesFindings(w, file, Lines(content))
  }

  function Findings(w: World, files: seq<string>): seq<Finding> {
    if files == [] then [] else Findings(w, files[..|files| - 1]) + FileFindings(w, files[|files| - 1])
  }

  // ---- the loops ----

  method ScanLine(w: World, file: string, n: nat, line: string, before: seq<Finding>) returns (findings: seq<Finding>)
    ensures findings == before + LineFindings(w, SCAN_RULES, file, n, line)
  {
    findings := before;
    for r := 0 to |SCAN_RULES|
      invariant findings == before + LineFindings(w, SCAN_RULES[..r], file, n, line)
    {
      hide SCAN_RULES;
      var rule := SCAN_RULES[r];
      ghost var soFar := findings;
      for p := 0 to |rule.patterns|
        invariant findings == soFar
        invariant forall k :: 0 <= k < p ==> !w.test(rule.patterns[k], line)
      {
        if w.test(rule.patterns[p], line) {
          findings := findings + [FindingOf(file, n, rule)];
          break;
        }
      }
      assert SCAN_RULES[..r + 1][..r] == SCAN_RULES[..r];
    }
    assert SCAN_RULES[..|SCAN_RULES|] == SCAN_RULES;
  }

  method ScanContent(w: World, file: string, content: string, before: seq<Finding>) returns (findings: seq<Finding>)
    ensures findings == before + LinesFindings(w, file, Lines(content))
  {
    hide LineFindings, Lines, SCAN_RULES;
    findings := before;
    var lines := Lines(content);
    for i := 0 to |lines|
      invariant findings == before + LinesFindings(w, file, lines[..i])
    {
      findings := ScanLine(w, file, i + 1, lines[i], findings);
      assert lines[..i + 1][..i] == lines[..i];
    }
    assert lines[..|lines|] == lines;
  }

  method ScanFiles(w: World, filePaths: seq<string>) returns (report: Report)
    ensures report.findings == Findings(w, filePaths)
    ensures report.passed <==> forall f :: f in report.findings ==> f.severity != Error
  {
    var findings: seq<Finding> := [];
    for p := 0 to |filePaths|
      invariant findings == Findings(w, filePaths[..p])
    {
      hide LinesFindings, Lines, SCAN_RULES;
      var file := filePaths[p];
      assert filePaths[..p + 1][..p] == filePaths[..p];
      var content := w.read(file);
      if content.None? {
        findings := findings + [ReadError(file)];
        continue;
      }
      findings := ScanContent(w, file, content.value, findings);
    }
    assert filePaths[..|filePaths|] == filePaths;
    var hasErrors := exists f | f in findings :: f.severity == Error;
    return Report(!hasErrors, findings);
  }

  // ---- what the report says ----

  /** A finding that some line, or an unreadable file, accounts for. */
  ghost predicate Explains(w: World, file: string, f: Finding) {
    match w.read(file)
    case None => f == Finding(file, 0, "file_read_error", Error, "Could not read file: " + file)
    case Some(content) =>
      exists i: nat, r: nat :: i < |Lines(content)| && r < |SCAN_RULES| && ExplainedBy(w, file, content, i, r, f)
  }

  /** Some pattern of the r-th rule matches the i-th line, and f says so. */
  ghost predicate ExplainedBy(w: World, file: string, content: string, i: nat, r: nat, f: Finding)
    requires i < |Lines(content)| && r < |SCAN_RULES|
  {
    (exists pattern :: pattern in SCAN_RULES[r].patterns && w.test(pattern, Lines(content)[i])) &&
    f == Finding(file, i + 1, SCAN_RULES[r].id, SCAN_RULES[r].severity, SCAN_RULES[r].message)
  }

  lemma FiresIff(w: World, rule: Rule, line: string)
    ensures Fires(w, rule, line) <==> exists pattern :: pattern in rule.patterns && w.test(pattern, line)
  {
    hide SCAN_RULES;
    if pattern :| pattern in rule.patterns && w.test(pattern, line) {
      var k :| 0 <= k < |rule.patterns| && rule.patterns[k] == pattern;
    }
  }

  lemma FileExact(w: World, file: string, f: Finding)
    ensures f in FileFindings(w, file) <==> Explains(w, file, f)
  {
    hide Fires, SCAN_RULES, LinesFindings, Lines, ExplainedBy;
    if w.read(file).Some? {
      var content := w.read(file).value;
      LinesExact(w, file, Lines(content), f);
      forall i: nat, r: nat | i < |Lines(content)| && r < |SCAN_RULES|
        ensures ExplainedBy(w, file, content, i, r, f) <==>
          Fires(w, SCAN_RULES[r], Lines(content)[i]) && f == FindingOf(file, i + 1, SCAN_RULES[r]) {
        ExplainedWhenFired(w, file, content, i, r, f);
      }
    }
  }

  lemma ExplainedWhenFired(w: World, file: string, content: string, i: nat, r: nat, f: Finding)
    requires i < |Lines(content)| && r < |SCAN_RULES|
    ensures ExplainedBy(w, file, content, i, r, f) <==>
      Fires(w, SCAN_RULES[r], Lines(content)[i]) && f == FindingOf(file, i + 1, SCAN_RULES[r])
  {
    hide Fires, SCAN_RULES, Lines;
    FiresIff(w, SCAN_RULES[r], Lines(content)[i]);
  }

  lemma {:induction false} LineExact(w: World, rules: seq<Rule>, file: string, n: nat, line: string, f: Finding)
    ensures f in LineFindings(w, rules, file, n, line) <==>
      exists r :: 0 <= r < |rules| && Fires(w, rules[r], line) && f == FindingOf(file, n, rules[r])
  {
    hide Fires;
    if rules != [] {
      var init := rules[..|rules| - 1];
      LineExact(w, init, file, n, line, f);
      assert forall r :: 0 <= r < |init| ==> init[r] == rules[r];
    }
  }

  lemma {:induction false} LinesExact(w: World, file: string, lines: seq<string>, f: Finding)
    ensures f in LinesFindings(w, file, lines) <==>
      exists i: nat, r: nat :: i < |lines| && r < |SCAN_RULES| &&
        Fires(w, SCAN_RULES[r], lines[i]) && f == FindingOf(file, i + 1, SCAN_RULES[r])
  {
    hide Fires, SCAN_RULES, LineFindings;
    if lines != [] {
      var init := lines[..|lines| - 1];
      LinesExact(w, file, init, f);
      LineExact(w, SCAN_RULES, file, |lines|, lines[|lines| - 1], f);
      assert forall i :: 0 <= i < |init| ==> init[i] == lines[i];
    }
  }

  /** The report holds what the files account for, and nothing else. */
  lemma {:induction false} FindingsAreExact(w: World, files: seq<string>, f: Finding)
    ensures f in Findings(w, files) <==> exists file :: file in files && Explains(w, file, f)
  {
    hide SCAN_RULES, FileFindings, Explains;
    if files != [] {
      var init, last := files[..|files| - 1], files[|files| - 1];
      FindingsAreExact(w, init, f);
      FileExact(w, last, f);
      assert files == init + [last];
    }
  }

  /** The file is readable and no pattern of a rule of error severity matches any of its lines. */
  ghost predicate Clean(w: World, file: string) {
    w.read(file).Some? && forall line :: line in Lines(w.read(file).value) ==> CleanLine(w, line)
  }

  ghost predicate CleanLine(w: World, line: string) {
    forall rule, pattern :: rule in SCAN_RULES && rule.severity == Error && pattern in rule.patterns ==>
      !w.test(pattern, line)
  }

  lemma CleanIffNothingExplains(w: World, file: string)
    ensures Clean(w, file) <==> forall f :: Explains(w, file, f) ==> f.severity != Error
  {
    hide SCAN_RULES, Lines, ExplainedBy;
    if w.read(file).None? {
      assert Explains(w, file, Finding(file, 0, "file_read_error", Error, "Could not read file: " + file));
    } else {
      var content := w.read(file).value;
      var lines := Lines(content);
      forall i: nat | i < |lines| && !CleanLine(w, lines[i])
        ensures exists f :: Explains(w, file, f) && f.severity == Error {
        var rule, pattern :| rule in SCAN_RULES && rule.severity == Error && pattern in rule.patterns &&
                             w.test(pattern, lines[i]);
        var r :| 0 <= r < |SCAN_RULES| && SCAN_RULES[r] == rule;
        assert Explains(w, file, Finding(file, i + 1, rule.id, rule.severity, rule.message)) by {
          assert ExplainedBy(w, file, content, i, r, Finding(file, i + 1, rule.id, rule.severity, rule.message)) by {
            Explained(w, file, content, i, r, pattern);
          }
        }
      }
      forall f | Clean(w, file) && Explains(w, file, f) ensures f.severity != Error {
        var i: nat, r: nat :| i < |lines| && r < |SCAN_RULES| && ExplainedBy(w, file, content, i, r, f);
        CleanLineExplains(w, file, content, i, r, f);
      }
    }
  }

  lemma Explained(w: World, file: string, content: string, i: nat, r: nat, pattern: string)
    requires i < |Lines(content)| && r < |SCAN_RULES|
    requires pattern in SCAN_RULES[r].patterns && w.test(pattern, Lines(content)[i])
    ensures ExplainedBy(w, file, content, i, r,
      Finding(file, i + 1, SCAN_RULES[r].id, SCAN_RULES[r].severity, SCAN_RULES[r].message))
  {
    hide SCAN_RULES, Lines;
  }

  lemma CleanLineExplains(w: World, file: string, content: string, i: nat, r: nat, f: Finding)
    requires i < |Lines(content)| && r < |SCAN_RULES| && ExplainedBy(w, file, content, i, r, f)
    requires CleanLine(w, Lines(content)[i])
    ensures f.severity != Error
  {
    hide SCAN_RULES, Lines;
    var pattern :| pattern in SCAN_RULES[r].patterns && w.test(pattern, Lines(content)[i]);
    assert SCAN_RULES[r] in SCAN_RULES;
  }

  predicate Passes(w: World, files: seq<string>) {
    forall f | f in Findings(w, files) :: f.severity != Error
  }

  /** Warnings do not fail a scan; any error finding and any unreadable file does. */
  lemma PassesIffEveryFileIsClean(w: World, files: seq<string>)
    ensures Passes(w, files) <==> forall file :: file in files ==> Clean(w, file)
  {
    hide Clean, Explains, Findings;
    forall f ensures f in Findings(w, files) <==> exists file :: file in files && Explains(w, file, f) {
      FindingsAreExact(w, files, f);
    }
    forall file ensures Clean(w, file) <==> forall f :: Explains(w, file, f) ==> f.severity != Error {
      CleanIffNothingExplains(w, file);
    }
  }

  /** Adding files never turns a failed scan into a passed one, whatever the order. */
  lemma AddingFilesNeverHelps(w: World, files: seq<string>, more: seq<string>)
    requires forall file :: file in files ==> file in more
    ensures Passes(w, more) ==> Passes(w, files)
  {
    hide Clean, Passes;
    PassesIffEveryFileIsClean(w, files);
    PassesIffEveryFileIsClean(w, more);
  }

  predicate DistinctIds(rules: seq<Rule>) {
    forall r, k | 0 <= r < k < |rules| :: rules[r].id != rules[k].id
  }

  /** Three rules fail a scan and two warn, with two to eight patterns each. */
  lemma RuleTable()
    ensures |SCAN_RULES| == 5
    ensures forall r | 0 <= r < 5 ::
      SCAN_RULES[r].id == ["dynamic_eval", "child_process", "network_access", "fs_write", "obfuscation"][r] &&
      SCAN_RULES[r].severity == (if r < 3 then Error else Warning) &&
      |SCAN_RULES[r].patterns| == [2, 6, 8, 5, 3][r]
  {
  }

  lemma RuleIdsDiffer()
    ensures DistinctIds(SCAN_RULES)
  {
  }

  lemma {:induction false} OncePerRule(w: World, rules: seq<Rule>, file: string, n: nat, line: string, r: nat)
    requires DistinctIds(rules) && r < |rules|
    ensures multiset(LineFindings(w, rules, file, n, line))[FindingOf(file, n, rules[r])] ==
      if Fires(w, rules[r], line) then 1 else 0
  {
    hide Fires;
    var init, last := rules[..|rules| - 1], rules[|rules| - 1];
    if r < |init| {
      OncePerRule(w, init, file, n, line, r);
    } else {
      NotFromOthers(w, init, file, n, line, last);
    }
  }

  /** A rule with an id of its own has no finding among those of the others. */
  lemma NotFromOthers(w: World, rules: seq<Rule>, file: string, n: nat, line: string, rule: Rule)
    requires forall k :: 0 <= k < |rules| ==> rules[k].id != rule.id
    ensures multiset(LineFindings(w, rules, file, n, line))[FindingOf(file, n, rule)] == 0
  {
    hide Fires, LineFindings;
    LineExact(w, rules, file, n, line, FindingOf(file, n, rule));
    assert FindingOf(file, n, rule) !in LineFindings(w, rules, file, n, line);
  }

  lemma LineNumbers(w: World, file: string, n: nat, line: string, f: Finding)
    requires f.line != n
    ensures multiset(LineFindings(w, SCAN_RULES, file, n, line))[f] == 0
  {
    hide Fires, SCAN_RULES, LineFindings;
    LineExact(w, SCAN_RULES, file, n, line, f);
    assert f !in LineFindings(w, SCAN_RULES, file, n, line);
  }

  /** Each rule is reported once for each line it fires on, however many of its patterns match. */
  lemma {:induction false} OncePerLineAndRule(w: World, file: string, lines: seq<string>, i: nat, r: nat)
    requires r < |SCAN_RULES|
    ensures multiset(LinesFindings(w, file, lines))[FindingOf(file, i + 1, SCAN_RULES[r])] ==
      if i < |lines| && Fires(w, SCAN_RULES[r], lines[i]) then 1 else 0
  {
    hide Fires, SCAN_RULES, LineFindings, DistinctIds;
    if lines != [] {
      var init, last := lines[..|lines| - 1], lines[|lines| - 1];
      OncePerLineAndRule(w, file, init, i, r);
      if i == |lines| - 1 {
        RuleIdsDiffer();
        OncePerRule(w, SCAN_RULES, file, |lines|, last, r);
      } else {
        LineNumbers(w, file, |lines|, last, FindingOf(file, i + 1, SCAN_RULES[r]));
      }
    }
  }

  /** Findings come file by file, and within a file line by line. */
  lemma {:induction false} FilesInOrder(w: World, files: seq<string>, more: seq<string>)
    ensures Findings(w, files + more) == Findings(w, files) + Findings(w, more)
  {
    hide FileFindings;
    if more == [] {
      assert files + more == files;
    } else {
      var n := |more| - 1;
      assert (files + more)[..|files| + n] == files + more[..n];
      FilesInOrder(w, files, more[..n]);
    }
  }

  lemma {:induction false} LinesInOrder(w: World, file: string, lines: seq<string>)
    ensures forall k :: 0 <= k < |LinesFindings(w, file, lines)| ==> LinesFindings(w, file, lines)[k].line <= |lines|
    ensures forall j, k :: 0 <= j < k < |LinesFindings(w, file, lines)| ==>
      LinesFindings(w, file, lines)[j].line <= LinesFindings(w, file, lines)[k].line
  {
    hide LineFindings, SCAN_RULES;
    if lines != [] {
      var n := |lines| - 1;
      LinesInOrder(w, file, lines[..n]);
      var last := LineFindings(w, SCAN_RULES, file, n + 1, lines[n]);
      forall k | 0 <= k < |last| ensures last[k].line == n + 1 {
        LineExact(w, SCAN_RULES, file, n + 1, lines[n], last[k]);
      }
    }
  }

  function Join(lines: seq<string>): string
    requires |lines| > 0
  {
    if |lines| == 1 then lines[0] else Join(lines[..|lines| - 1]) + "\n" + lines[|lines| - 1]
  }

  /** No line holds a line feed, and joining the lines with line feeds gives the text back. */
  lemma {:induction false} LinesRoundTrip(content: string)
    ensures Join(Lines(content)) == content
    ensures forall i :: 0 <= i < |Lines(content)| ==> '\n' !in Lines(content)[i]
  {
    if content != "" {
      var before, last := Lines(content[..|content| - 1]), content[|content| - 1];
      LinesRoundTrip(content[..|content| - 1]);
      assert content == content[..|content| - 1] + [last];
      if last == '\n' {
        assert (before + [""])[..|before|] == before;
      } else {
        var longer := before[|before| - 1 := before[|before| - 1] + [last]];
        assert longer[..|before| - 1] == before[..|before| - 1];
      }
    }
  }
}
