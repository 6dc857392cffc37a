/**
 * Which secret env files a capability run asks for: `patternMatchesCapability`
 * and `buildSecretRequestList` of the agent runner.
 */
module Secrets {
  import opened Wrappers
  import opened JsText
  import opened Glob

  /** The parts of a discovered capability these rules read; `tags` may be absent. */
  datatype CapabilitySummary = CapabilitySummary(id: string, tags: Option<seq<string>>, supportsCheck: bool)

  datatype SecretMappingEntry = SecretMappingEntry(pattern: string, envFiles: seq<string>)

  predicate HasTag(cap: CapabilitySummary, tag: string) {
    cap.tags.Some? && tag in cap.tags.value
  }

  /**
   * `patternMatchesCapability`: an empty pattern never matches, `tag:X`
   * matches a capability tagged X, a pattern with `*` or `?` is a glob over
   * the id, and any other pattern must equal the id.
   */
  function PatternMatchesCapability(pattern: string, cap: CapabilitySummary): (b: bool)
    ensures pattern == [] ==> !b
    ensures StartsWith(pattern, "tag:") ==> (b <==> HasTag(cap, pattern[4..]))
    // Outside `tag:` patterns, exact-id matching agrees with the glob reading of the pattern.
    ensures pattern != [] && !StartsWith(pattern, "tag:") ==> (b <==> Test(GlobAtoms(pattern), cap.id))
  {
    if pattern == [] then false
    else if StartsWith(pattern, "tag:") then HasTag(cap, pattern[4..])
    else if HasWildcard(pattern) then Test(WildcardToRegExp(pattern), cap.id)
    else
      LiteralGlobMatchesItself(pattern, cap.id);
      cap.id == pattern
  }

  // ---- The insertion-ordered set ----

  /** `Set.prototype.add` on a set kept as its insertion order. */
  function Add(s: seq<string>, x: string): seq<string> {
    if x in s then s else s + [x]
  }

  /** The set obtained by adding the items of `xs` in order. */
  function Dedupe(xs: seq<string>): seq<string>
    decreases |xs|
  {
    if xs == [] then [] else Add(Dedupe(xs[..|xs| - 1]), xs[|xs| - 1])
  }

  predicate NoDuplicates(s: seq<string>) {
    forall i, j :: 0 <= i < j < |s| ==> s[i] != s[j]
  }

  /** Adding to the set keeps what it had in place, holds no duplicates, and holds exactly the items added. */
  lemma {:induction false} DedupeIsOrderedSet(xs: seq<string>)
    ensures NoDuplicates(Dedupe(xs))
    ensures forall x :: x in Dedupe(xs) <==> x in xs
    decreases |xs|
  {
    if xs != [] {
      var init := xs[..|xs| - 1];
      DedupeIsOrderedSet(init);
      assert xs == init + [xs[|xs| - 1]];
    }
  }

  /** An item already present keeps its first position: the set of a prefix is a prefix of the set. */
  lemma {:induction false} DedupePrefix(a: seq<string>, b: seq<string>)
    ensures Dedupe(a) <= Dedupe(a + b)
    decreases |b|
  {
    if b == [] {
      assert a + b == a;
    } else {
      var init := b[..|b| - 1];
      DedupePrefix(a, init);
      assert a + b == (a + init) + [b[|b| - 1]];
      assert (a + b)[..|a + b| - 1] == a + init;
    }
  }

  // ---- The candidates, in the order the runner adds them ----

  /** The trimmed, non-empty entries of a file list, in order. */
  function TrimmedFiles(files: seq<string>): seq<string>
    decreases |files|
  {
    if files == [] then []
    else
      var t := Trim(files[|files| - 1]);
      TrimmedFiles(files[..|files| - 1]) + (if |t| > 0 then [t] else [])
  }

  predicate AllTrimmed(r: seq<string>) {
    forall x :: x in r ==> x != [] && Trim(x) == x
  }

  lemma {:induction false} TrimmedFilesTrimmed(files: seq<string>)
    ensures AllTrimmed(TrimmedFiles(files))
    decreases |files|
  {
    if files != [] {
      TrimmedFilesTrimmed(files[..|files| - 1]);
      TrimIdempotent(files[|files| - 1]);
    }
  }

  /** Files of the mapping entries whose pattern matches, entry by entry. */
  function MappingFiles(entries: seq<SecretMappingEntry>, cap: CapabilitySummary): seq<string>
    decreases |entries|
  {
    if entries == [] then []
    else
      var e := entries[|entries| - 1];
      MappingFiles(entries[..|entries| - 1], cap)
        + (if PatternMatchesCapability(e.pattern, cap) then TrimmedFiles(e.envFiles) else [])
  }

  lemma {:induction false} MappingFilesTrimmed(entries: seq<SecretMappingEntry>, cap: CapabilitySummary)
    ensures AllTrimmed(MappingFiles(entries, cap))
    decreases |entries|
  {
    if entries != [] {
      MappingFilesTrimmed(entries[..|entries| - 1], cap);
      TrimmedFilesTrimmed(entries[|entries| - 1].envFiles);
    }
  }

  const ErpnextEnv := "erpnext.env"
  const ErpnextPrefix := "erpnext."
  const ErpnextTag := "needs:erpnext"

  function ErpnextFiles(cap: CapabilitySummary): seq<string> {
    (if StartsWith(cap.id, ErpnextPrefix) then [ErpnextEnv] else [])
      + (if HasTag(cap, ErpnextTag) then [ErpnextEnv] else [])
  }

  function Candidates(cap: CapabilitySummary, cliEnvFiles: seq<string>, entries: seq<SecretMappingEntry>): seq<string> {
    MappingFiles(entries, cap) + ErpnextFiles(cap) + TrimmedFiles(cliEnvFiles)
  }

  /**
   * `buildSecretRequestList`: fills an insertion-ordered set from the
   * matching mapping entries, then `erpnext.env` for an `erpnext.` id or a
   * `needs:erpnext` tag, then the command-line files.
   */
  method BuildSecretRequestList(cap: CapabilitySummary, cliEnvFiles: seq<string>, entries: seq<SecretMappingEntry>)
    returns (requested: seq<string>)
    ensures requested == Dedupe(Candidates(cap, cliEnvFiles, entries))
  {
    requested := AddMatchingEntries(cap, entries);
    ghost var mapped := MappingFiles(entries, cap);
    ghost var added := mapped;
    if StartsWith(cap.id, ErpnextPrefix) {
      requested := Add(requested, ErpnextEnv);
      DedupeStep(added, ErpnextEnv);
      added := added + [ErpnextEnv];
    }
    if HasTag(cap, ErpnextTag) {
      requested := Add(requested, ErpnextEnv);
      DedupeStep(added, ErpnextEnv);
      added := added + [ErpnextEnv];
    }
    assert added == mapped + ErpnextFiles(cap);

    requested := AddCommandLineFiles(requested, added, cliEnvFiles);
  }

  /** The `mapping.entries.forEach` step: the trimmed non-blank files of each matching entry, in entry order. */
  method AddMatchingEntries(cap: CapabilitySummary, entries: seq<SecretMappingEntry>) returns (requested: seq<string>)
    ensures requested == Dedupe(MappingFiles(entries, cap))
  {
    requested := [];
    ghost var added: seq<string> := [];
    for i := 0 to |entries|
      invariant added == MappingFiles(entries[..i], cap)
      invariant requested == Dedupe(added)
    {
      var entry := entries[i];
      if PatternMatchesCapability(entry.pattern, cap) {
        requested := AddEntryFiles(requested, added, entry.envFiles);
        added := added + TrimmedFiles(entry.envFiles);
      }
      MappingFilesStep(entries, i, cap);
    }
    assert entries[..|entries|] == entries;
  }

  /** The inner `entry.envFiles.forEach`: each file, trimmed, joins the set unless it is blank. */
  method AddEntryFiles(requested: seq<string>, ghost added: seq<string>, envFiles: seq<string>)
    returns (result: seq<string>)
    requires requested == Dedupe(added)
    ensures result == Dedupe(added + TrimmedFiles(envFiles))
  {
    result := requested;
    ghost var done: seq<string> := added;
    for j := 0 to |envFiles|
      invariant done == added + TrimmedFiles(envFiles[..j])
      invariant result == Dedupe(done)
    {
      var trimmed := Trim(envFiles[j]);
      TrimmedFilesStep(envFiles, j);
      if |trimmed| > 0 {
        result := Add(result, trimmed);
        DedupeStep(done, trimmed);
        done := done + [trimmed];
      }
    }
    assert envFiles[..|envFiles|] == envFiles;
  }

  /** The `cliEnvFiles.forEach` step of `buildSecretRequestList`: each non-blank file, trimmed, joins the set. */
  method AddCommandLineFiles(requested: seq<string>, ghost added: seq<string>, cliEnvFiles: seq<string>)
    returns (result: seq<string>)
    requires requested == Dedupe(added)
    ensures result == Dedupe(added + TrimmedFiles(cliEnvFiles))
  {
    result := requested;
    ghost var done: seq<string> := added;
    for k := 0 to |cliEnvFiles|
      invariant done == added + TrimmedFiles(cliEnvFiles[..k])
      invariant result == Dedupe(done)
    {
      var file := cliEnvFiles[k];
      TrimmedFilesStep(cliEnvFiles, k);
      var trimmed := Trim(file);
      if |file| > 0 && |trimmed| > 0 {
        result := Add(result, trimmed);
        DedupeStep(done, trimmed);
        done := done + [trimmed];
      } else if file == [] {
        TrimAllSpace(file);
      }
    }
    assert cliEnvFiles[..|cliEnvFiles|] == cliEnvFiles;
  }

  lemma DedupeStep(xs: seq<string>, x: string)
    ensures Dedupe(xs + [x]) == Add(Dedupe(xs), x)
  {
    assert (xs + [x])[..|xs|] == xs;
  }

  lemma TrimmedFilesStep(files: seq<string>, j: nat)
    requires j < |files|
    ensures var t := Trim(files[j]);
      TrimmedFiles(files[..j + 1]) == TrimmedFiles(files[..j]) + (if |t| > 0 then [t] else [])
  {
    assert files[..j + 1][..j] == files[..j];
  }

  lemma MappingFilesStep(entries: seq<SecretMappingEntry>, i: nat, cap: CapabilitySummary)
    requires i < |entries|
    ensures var e := entries[i];
      MappingFiles(entries[..i + 1], cap) == MappingFiles(entries[..i], cap)
        + (if PatternMatchesCapability(e.pattern, cap) then TrimmedFiles(e.envFiles) else [])
  {
    assert entries[..i + 1][..i] == entries[..i];
  }

  /** The request list holds no duplicates, only trimmed non-empty names, and exactly the candidates. */
  lemma RequestListContents(cap: CapabilitySummary, cliEnvFiles: seq<string>, entries: seq<SecretMappingEntry>)
    ensures var r := Dedupe(Candidates(cap, cliEnvFiles, entries));
      && NoDuplicates(r)
      && AllTrimmed(r)
      && (forall x :: x in r <==> x in Candidates(cap, cliEnvFiles, entries))
  {
    var m := MappingFiles(entries, cap);
    var c := TrimmedFiles(cliEnvFiles);
    DedupeIsOrderedSet(Candidates(cap, cliEnvFiles, entries));
    MappingFilesTrimmed(entries, cap);
    TrimmedFilesTrimmed(cliEnvFiles);
    ErpnextFilesTrimmed(cap);
    assert AllTrimmed(Candidates(cap, cliEnvFiles, entries)) by {
      assert Candidates(cap, cliEnvFiles, entries) == m + ErpnextFiles(cap) + c;
    }
  }

  lemma ErpnextFilesTrimmed(cap: CapabilitySummary)
    ensures AllTrimmed(ErpnextFiles(cap))
  {
    TrimUnpadded(ErpnextEnv);
  }

  /** Mapping-derived files come first in their own order, then `erpnext.env`, then command-line files. */
  lemma RequestListOrder(cap: CapabilitySummary, cliEnvFiles: seq<string>, entries: seq<SecretMappingEntry>)
    ensures var r := Dedupe(Candidates(cap, cliEnvFiles, entries));
      && Dedupe(MappingFiles(entries, cap)) <= r
      && Dedupe(MappingFiles(entries, cap) + ErpnextFiles(cap)) <= r
  {
    var m := MappingFiles(entries, cap);
    var e := ErpnextFiles(cap);
    var c := TrimmedFiles(cliEnvFiles);
    DedupePrefix(m, e + c);
    assert m + e + c == m + (e + c);
    DedupePrefix(m + e, c);
  }
}

module SecretsExample {
  import opened Wrappers
  import opened JsText
  import opened Glob
  import opened Secrets

  predicate Unpadded(f: string) {
    f != [] && !IsSpace(f[0]) && !IsSpace(f[|f| - 1])
  }

  lemma TrimmedOne(f: string)
    requires Unpadded(f)
    ensures TrimmedFiles([f]) == [f]
  {
    TrimUnpadded(f);
    assert [f][..0] == [];
  }

  lemma TrimmedPair(f0: string, f1: string)
    requires Unpadded(f0) && Unpadded(f1)
    ensures TrimmedFiles([f0, f1]) == [f0, f1]
  {
    TrimmedOne(f0);
    TrimUnpadded(f1);
    assert [f0, f1][..1] == [f0];
  }

  lemma MappingFilesPair(e0: SecretMappingEntry, e1: SecretMappingEntry, cap: CapabilitySummary)
    requires PatternMatchesCapability(e0.pattern, cap) && PatternMatchesCapability(e1.pattern, cap)
    ensures MappingFiles([e0, e1], cap) == TrimmedFiles(e0.envFiles) + TrimmedFiles(e1.envFiles)
  {
    assert [e0, e1][..1] == [e0] && [e0][..0] == [];
    assert MappingFiles([e0], cap) == TrimmedFiles(e0.envFiles);
  }

  /** A literal prefix followed by `*` matches an id that starts with it and stays on one line. */
  lemma PrefixPatternMatches(q: string, cap: CapabilitySummary)
    requires q != [] && !HasWildcard(q) && q[0] != 't'
    requires StartsWith(cap.id, q) && NoLineTerminator(cap.id[|q|..])
    ensures PatternMatchesCapability(q + "*", cap)
  {
    PrefixGlob(q, cap.id);
    assert (q + "*")[0] == q[0];
  }

  lemma DedupeOfDistinct(a: string, b: string, c: string)
    requires a != b && a != c && b != c
    ensures Dedupe([a, b, c]) == [a, b, c]
  {
    DedupeStep([], a);
    assert [] + [a] == [a];
    DedupeStep([a], b);
    assert [a] + [b] == [a, b];
    DedupeStep([a, b], c);
    assert [a, b] + [c] == [a, b, c];
  }

  lemma DedupeOfTestCandidates(a: string, b: string, c: string, d: string)
    requires a != b && a != c && a != d && b != c && b != d && c != d
    ensures Dedupe([a, b, c, a, a, d]) == [a, b, c, d]
  {
    DedupeOfDistinct(a, b, c);
    DedupeStep([a, b, c], a);
    assert [a, b, c] + [a] == [a, b, c, a];
    assert Dedupe([a, b, c, a]) == [a, b, c];
    DedupeStep([a, b, c, a], a);
    assert [a, b, c, a] + [a] == [a, b, c, a, a];
    assert Dedupe([a, b, c, a, a]) == [a, b, c];
    DedupeStep([a, b, c, a, a], d);
    assert [a, b, c, a, a] + [d] == [a, b, c, a, a, d];
  }

  lemma TestCandidates(cap: CapabilitySummary, p0: string, p1: string, a: string, b: string, c: string, d: string)
    requires PatternMatchesCapability(p0, cap) && PatternMatchesCapability(p1, cap)
    requires ErpnextFiles(cap) == [a, a]
    requires Unpadded(a) && Unpadded(b) && Unpadded(c) && Unpadded(d)
    ensures Candidates(cap, [d], [SecretMappingEntry(p0, [a, b]), SecretMappingEntry(p1, [c])]) == [a, b, c, a, a, d]
  {
    TrimmedPair(a, b);
    TrimmedOne(c);
    TrimmedOne(d);
    var entries := [SecretMappingEntry(p0, [a, b]), SecretMappingEntry(p1, [c])];
    MappingFilesPair(entries[0], entries[1], cap);
    var m := MappingFiles(entries, cap);
    var t := TrimmedFiles([d]);
    assert m == [a, b, c] && t == [d];
    assert Candidates(cap, [d], entries) == m + [a, a] + t;
  }

  const SyncCap := CapabilitySummary("erpnext.sync", Some(["needs:erpnext"]), true)

  lemma SyncCapIdFacts()
    ensures ErpnextPrefix + "*" == "erpnext.*"
    ensures StartsWith(SyncCap.id, ErpnextPrefix) && NoLineTerminator(SyncCap.id[|ErpnextPrefix|..])
    ensures !HasWildcard(ErpnextPrefix)
  {
    assert "erpnext.sync"[..8] == "erpnext.";
    assert "erpnext.sync"[8..] == "sync";
  }

  lemma SyncCapGlobMatches()
    ensures PatternMatchesCapability("erpnext.*", SyncCap)
  {
    SyncCapIdFacts();
    PrefixPatternMatches(ErpnextPrefix, SyncCap);
  }

  lemma SyncCapTagMatches()
    ensures PatternMatchesCapability("tag:needs:erpnext", SyncCap)
    ensures ErpnextFiles(SyncCap) == ["erpnext.env", "erpnext.env"]
  {
    assert StartsWith("tag:needs:erpnext", "tag:") && "tag:needs:erpnext"[4..] == "needs:erpnext";
    assert "erpnext.sync"[..8] == ErpnextPrefix;
  }

  lemma TestNamesUnpadded()
    ensures Unpadded("erpnext.env") && Unpadded("common.env") && Unpadded("addon.env") && Unpadded("extra.env")
  {
  }

  lemma TestNamesDistinct()
    ensures "erpnext.env" != "common.env" && "erpnext.env" != "addon.env" && "erpnext.env" != "extra.env"
    ensures "common.env" != "addon.env" && "common.env" != "extra.env" && "addon.env" != "extra.env"
  {
    assert "addon.env"[0] != "extra.env"[0];
  }

  /** The capability `erpnext.sync`, tagged `needs:erpnext`, with the two-entry mapping of the runner's test. */
  lemma MergesMappingAndCommandLine()
    ensures PatternMatchesCapability("erpnext.*", SyncCap)
    ensures Dedupe(Candidates(SyncCap, ["extra.env"], [SecretMappingEntry("erpnext.*", ["erpnext.env", "common.env"]),
                                                        SecretMappingEntry("tag:needs:erpnext", ["addon.env"])]))
         == ["erpnext.env", "common.env", "addon.env", "extra.env"]
  {
    SyncCapGlobMatches();
    SyncCapTagMatches();
    TestNamesUnpadded();
    TestNamesDistinct();
    TestCandidates(SyncCap, "erpnext.*", "tag:needs:erpnext", "erpnext.env", "common.env", "addon.env", "extra.env");
    DedupeOfTestCandidates("erpnext.env", "common.env", "addon.env", "extra.env");
  }
}
