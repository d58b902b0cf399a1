// Comparing a release archive with its staging directory, in both directions.
// A path is the sequence of its "/"-separated segments; base is the name of the
// staging directory, under which every archived name must lie.
module ReleaseArchive {
  import opened Wrappers

  type Path = seq<string>

  datatype Kind = Directory | Regular | Other

  datatype Entry<C> = Entry(path: Path, kind: Kind, content: C)

  const RELEASE: Path := ["release.json"]
  const SBOM: Path := ["SBOM.cdx.json"]

  // filepath.Clean on a relative path; [] is the path ".".
  function Clean(path: Path): Path {
    CleanOnto([], path)
  }

  function CleanOnto(done: Path, path: Path): Path
    decreases |path|
  {
    if path == [] then done
    else if path[0] == "" || path[0] == "." then CleanOnto(done, path[1..])
    else if path[0] == ".." && done != [] && done[|done| - 1] != ".." then CleanOnto(done[..|done| - 1], path[1..])
    else CleanOnto(done + [path[0]], path[1..])
  }

  // filepath.IsLocal: not empty, not absolute, and not leading out of the root.
  predicate Local(path: Path) {
    path != [] && path[0] != "" && (Clean(path) == [] || Clean(path)[0] != "..")
  }

  predicate Plain(path: Path) {
    path != [] && forall i :: 0 <= i < |path| ==> path[i] != "" && path[i] != "." && path[i] != ".."
  }

  predicate UnderBase(base: string, path: Path) {
    |path| >= 2 && path[0] == base
  }

  // strings.TrimPrefix(header.Name, base + "/"), for a name under the base
  function Name(path: Path): Path
    requires path != []
  {
    path[1..]
  }

  // The name under which an entry packs a file, if it does.
  ghost function PackedName<C>(e: Entry<C>, base: string): Option<Path> {
    if e.kind == Regular && |e.path| >= 2 && e.path[0] == base then Some(e.path[1..]) else None
  }

  // The file tree under the staging directory: each file under its clean path.
  ghost predicate Tree<C>(staging: map<Path, C>) {
    forall p :: p in staging ==> Plain(p)
  }

  ghost predicate EntryMatches<C, D>(e: Entry<C>, base: string, staging: map<Path, C>, digest: C -> D) {
    e.kind == Directory
    || (&& e.kind == Regular
        && UnderBase(base, e.path)
        && Local(Name(e.path))
        && Clean(Name(e.path)) in staging
        && digest(staging[Clean(Name(e.path))]) == digest(e.content))
  }

  ghost predicate NamesOnce<C>(entries: seq<Entry<C>>, base: string) {
    forall i, j :: 0 <= i < j < |entries| && PackedName(entries[i], base).Some?
      ==> PackedName(entries[i], base) != PackedName(entries[j], base)
  }

  ghost predicate Packed<C>(entries: seq<Entry<C>>, base: string, name: Path) {
    exists i :: 0 <= i < |entries| && PackedName(entries[i], base) == Some(name)
  }

  // What the comparison establishes, step by step.
  ghost predicate Checked<C, D>(
    entries: seq<Entry<C>>, intact: bool, base: string, staging: map<Path, C>, external: Option<C>, digest: C -> D)
  {
    && intact
    && (forall i :: 0 <= i < |entries| ==> EntryMatches(entries[i], base, staging, digest))
    && NamesOnce(entries, base)
    && Packed(entries, base, RELEASE) && Packed(entries, base, SBOM)
    && (forall p :: p in staging ==> Packed(entries, base, p))
    && SBOM in staging && external.Some? && digest(staging[SBOM]) == digest(external.value)
  }

  // intact is false when the archive cannot be read to its end; external is the
  // SBOM published beside the archive, if it can be read.
  method VerifyArchiveInputs<C, D(==)>(
    entries: seq<Entry<C>>, intact: bool, base: string, staging: map<Path, C>, external: Option<C>, digest: C -> D)
    returns (ok: bool)
    ensures ok <==> Checked(entries, intact, base, staging, external, digest)
  {
    var seen: set<Path> := {};
    var n := 0;
    while n < |entries|
      invariant 0 <= n <= |entries|
      invariant forall i :: 0 <= i < n ==> EntryMatches(entries[i], base, staging, digest)
      invariant NamesOnce(entries[..n], base)
      invariant forall name :: name in seen <==> Packed(entries[..n], base, name)
    {
      var header := entries[n];
      assert entries[..n + 1] == entries[..n] + [header];
      if header.kind == Directory {
        PackedStep(entries, n, base);
        n := n + 1;
        continue;
      }
      if header.kind != Regular {
        assert !EntryMatches(entries[n], base, staging, digest);
        return false;
      }
      if !UnderBase(base, header.path) || !Local(Name(header.path)) {
        assert !EntryMatches(entries[n], base, staging, digest);
        return false;
      }
      var name := Name(header.path);
      PackedStep(entries, n, base);
      if name in seen {
        assert !NamesOnce(entries[..n + 1], base);
        if NamesOnce(entries, base) {
          NamesOncePrefix(entries, n + 1, base);
        }
        return false;
      }
      seen := seen + {name};
      var path := Clean(name);
      if path !in staging || digest(header.content) != digest(staging[path]) {
        assert !EntryMatches(entries[n], base, staging, digest);
        return false;
      }
      n := n + 1;
    }
    assert entries[..n] == entries;
    if !intact || RELEASE !in seen || SBOM !in seen {
      return false;
    }
    var staged := staging.Keys;
    while staged != {}
      invariant staged <= staging.Keys
      invariant forall p :: p in staging.Keys - staged ==> Packed(entries, base, p)
      decreases staged
    {
      var p :| p in staged;
      staged := staged - {p};
      if p !in seen {
        return false;
      }
    }
    if SBOM !in staging || external.None? {
      return false;
    }
    return digest(staging[SBOM]) == digest(external.value);
  }

  lemma PackedStep<C>(entries: seq<Entry<C>>, n: nat, base: string)
    requires n < |entries|
    ensures forall name :: Packed(entries[..n + 1], base, name)
              <==> Packed(entries[..n], base, name) || PackedName(entries[n], base) == Some(name)
    ensures NamesOnce(entries[..n + 1], base)
       <==> NamesOnce(entries[..n], base)
            && (PackedName(entries[n], base).Some? ==> !Packed(entries[..n], base, PackedName(entries[n], base).value))
  {
    var before, after := entries[..n], entries[..n + 1];
    assert after[n] == entries[n];
    assert forall i :: 0 <= i < n ==> before[i] == after[i];
    forall name
      ensures Packed(after, base, name) <==> Packed(before, base, name) || PackedName(entries[n], base) == Some(name)
    {
      if Packed(before, base, name) {
        var i :| 0 <= i < n && PackedName(before[i], base) == Some(name);
        assert PackedName(after[i], base) == Some(name);
      }
    }
    if NamesOnce(after, base) && PackedName(entries[n], base).Some? {
      var name := PackedName(entries[n], base).value;
      assert forall i :: 0 <= i < n ==> PackedName(after[i], base) != Some(name);
    }
  }

  lemma NamesOncePrefix<C>(entries: seq<Entry<C>>, n: nat, base: string)
    requires n <= |entries| && NamesOnce(entries, base)
    ensures NamesOnce(entries[..n], base)
  {
  }

  // ---- What was promised: archive and staging hold the same files ----

  ghost predicate CollisionFree<C(!new), D>(digest: C -> D) {
    forall a, b :: digest(a) == digest(b) ==> a == b
  }

  // The archive's regular entries are exactly the staged files, each once.
  ghost predicate SameFiles<C>(entries: seq<Entry<C>>, base: string, staging: map<Path, C>) {
    && (forall i :: 0 <= i < |entries| ==>
          entries[i].kind == Directory
          || (&& entries[i].kind == Regular && |entries[i].path| >= 2 && entries[i].path[0] == base
              && entries[i].path[1..] in staging && staging[entries[i].path[1..]] == entries[i].content))
    && NamesOnce(entries, base)
    && (forall p :: p in staging ==> Packed(entries, base, p))
  }

  ghost predicate Provenance<C>(staging: map<Path, C>, external: Option<C>) {
    RELEASE in staging && SBOM in staging && external == Some(staging[SBOM])
  }

  ghost predicate PlainNames<C>(entries: seq<Entry<C>>) {
    forall i :: 0 <= i < |entries| && entries[i].kind == Regular && |entries[i].path| >= 2 ==>
      Plain(Name(entries[i].path))
  }

  lemma {:induction false} CleanOntoPlain(done: Path, path: Path)
    requires forall i :: 0 <= i < |path| ==> path[i] != "" && path[i] != "." && path[i] != ".."
    ensures CleanOnto(done, path) == done + path
    decreases |path|
  {
    if path == [] {
      assert done + path == done;
    } else {
      CleanOntoPlain(done + [path[0]], path[1..]);
      assert done + [path[0]] + path[1..] == done + path;
    }
  }

  lemma PlainIsClean(path: Path)
    requires Plain(path)
    ensures Clean(path) == path && Local(path)
  {
    CleanOntoPlain([], path);
  }

  // ---- Names that are not plain ----

  lemma {:induction false} CleanOntoSplit(done: Path, p: Path, q: Path)
    ensures CleanOnto(done, p + q) == CleanOnto(CleanOnto(done, p), q)
    decreases |p|
  {
    if p == [] {
      assert p + q == q;
    } else {
      assert (p + q)[1..] == p[1..] + q;
      if p[0] == "" || p[0] == "." {
        CleanOntoSplit(done, p[1..], q);
      } else if p[0] == ".." && done != [] && done[|done| - 1] != ".." {
        CleanOntoSplit(done[..|done| - 1], p[1..], q);
      } else {
        CleanOntoSplit(done + [p[0]], p[1..], q);
      }
    }
  }

  // Only leading ".." are left of what is not a name.
  ghost predicate IsClean(p: Path) {
    exists n :: 0 <= n <= |p| && (forall i :: 0 <= i < n ==> p[i] == "..") && (n < |p| ==> Plain(p[n..]))
  }

  lemma {:induction false} CleanOntoIsClean(done: Path, p: Path)
    requires IsClean(done)
    ensures IsClean(CleanOnto(done, p))
    decreases |p|
  {
    if p != [] {
      var n :| 0 <= n <= |done| && (forall i :: 0 <= i < n ==> done[i] == "..")
                && (n < |done| ==> Plain(done[n..]));
      var m := |done|;
      if p[0] == "" || p[0] == "." {
        CleanOntoIsClean(done, p[1..]);
      } else if p[0] == ".." && done != [] && done[m - 1] != ".." {
        assert done[..m - 1][n..] == done[n..][..m - 1 - n];
        CleanOntoIsClean(done[..m - 1], p[1..]);
      } else {
        NotBelow(done, n, p[0]);
        CleanOntoIsClean(done + [p[0]], p[1..]);
      }
    }
  }

  lemma NotBelow(done: Path, n: nat, name: string)
    requires n <= |done| && (forall i :: 0 <= i < n ==> done[i] == "..") && (n < |done| ==> Plain(done[n..]))
    requires name != "" && name != "." && (name == ".." ==> done == [] || done[|done| - 1] == "..")
    ensures IsClean(done + [name])
  {
    var more, k := done + [name], if name == ".." then |done| + 1 else n;
    if n < |done| { assert done[n..][|done| - 1 - n] == done[|done| - 1]; }
    assert k < |more| ==> more[k..] == done[n..] + [name];
    assert forall i :: 0 <= i < k ==> more[i] == "..";
  }

  // Cleaning drops empty and "." segments, lets ".." take back the name before it, and
  // leaves plain paths alone; nothing else is left to drop.
  lemma CleanLaws(p: Path, q: Path, name: string)
    requires Plain([name])
    ensures Clean(p + [""] + q) == Clean(p + q) && Clean(p + ["."] + q) == Clean(p + q)
    ensures Clean(p + [name, ".."] + q) == Clean(p + q)
    ensures Plain(p) ==> Clean(p) == p
    ensures IsClean(Clean(p))
  {
    CleanOntoSplit([], p, q);
    var done := CleanOnto([], p);
    CleanOntoSplit([], p, [""]);
    CleanOntoSplit([], p + [""], q);
    CleanOntoSplit([], p, ["."]);
    CleanOntoSplit([], p + ["."], q);
    CleanOntoSplit([], p, [name, ".."]);
    CleanOntoSplit([], p + [name, ".."], q);
    assert [name][0] == name;
    UpAndDown(done, name);
    if Plain(p) { PlainIsClean(p); }
    assert IsClean([]);
    CleanOntoIsClean([], p);
    hide Plain, IsClean;
  }

  lemma UpAndDown(done: Path, name: string)
    requires name != "" && name != "." && name != ".."
    ensures CleanOnto(done, [name, ".."]) == done
  {
    assert [name, ".."][1..] == [".."] && [".."][1..] == [];
    assert (done + [name])[..|done|] == done;
    assert CleanOnto(done + [name], [".."]) == CleanOnto(done, []);
  }

  // How far below the root the first n segments lead.
  ghost function Level(p: Path, n: nat): int
    requires n <= |p|
  {
    if n == 0 then 0
    else
      var s := p[n - 1];
      Level(p, n - 1) + (if s == "" || s == "." then 0 else if s == ".." then -1 else 1)
  }

  // A name is local if and only if it is relative and never leads out of the root on
  // its way.
  lemma LocalStaysInside(p: Path)
    ensures Local(p) <==> p != [] && p[0] != "" && forall n :: 0 <= n <= |p| ==> Level(p, n) >= 0
  {
    assert p[..|p|] == p;
    if forall n :: 0 <= n <= |p| ==> Level(p, n) >= 0 {
      InsideIsPlain(p, |p|);
    } else {
      var n :| 0 <= n <= |p| && Level(p, n) < 0;
      OutsideShows(p, n, |p|);
    }
  }

  lemma {:induction false} InsideIsPlain(p: Path, n: nat)
    requires n <= |p| && forall i :: 0 <= i <= n ==> Level(p, i) >= 0
    ensures |Clean(p[..n])| == Level(p, n)
    ensures forall i :: 0 <= i < |Clean(p[..n])| ==> Clean(p[..n])[i] != ".."
  {
    if n > 0 {
      InsideIsPlain(p, n - 1);
      CleanMore(p, n);
    }
  }

  lemma CleanMore(p: Path, n: nat)
    requires 0 < n <= |p|
    ensures Clean(p[..n]) == CleanOnto(Clean(p[..n - 1]), [p[n - 1]])
  {
    assert p[..n] == p[..n - 1] + [p[n - 1]];
    CleanOntoSplit([], p[..n - 1], [p[n - 1]]);
  }

  lemma {:induction false} OutsideShows(p: Path, n: nat, m: nat)
    requires n <= m <= |p| && Level(p, n) < 0
    ensures Clean(p[..m]) != [] && Clean(p[..m])[0] == ".."
    decreases m
  {
    if n < m {
      OutsideShows(p, n, m - 1);
      CleanMore(p, m);
    } else if exists k :: 0 <= k < n && Level(p, k) < 0 {
      var k :| 0 <= k < n && Level(p, k) < 0;
      OutsideShows(p, k, m - 1);
      CleanMore(p, m);
    } else {
      InsideIsPlain(p, n - 1);
      CleanMore(p, n);
    }
  }

  // For plain names and a collision-free digest, the comparison succeeds exactly
  // when archive and staging hold the same files with their provenance.
  lemma CheckedMeansSameFiles<C(!new), D>(
    entries: seq<Entry<C>>, intact: bool, base: string, staging: map<Path, C>, external: Option<C>, digest: C -> D)
    requires Tree(staging) && CollisionFree(digest) && PlainNames(entries)
    ensures Checked(entries, intact, base, staging, external, digest)
       <==> intact && SameFiles(entries, base, staging) && Provenance(staging, external)
  {
    forall i | 0 <= i < |entries| && entries[i].kind == Regular && UnderBase(base, entries[i].path)
      ensures Clean(Name(entries[i].path)) == Name(entries[i].path) && Local(Name(entries[i].path))
    {
      PlainIsClean(Name(entries[i].path));
    }
    if Checked(entries, intact, base, staging, external, digest) {
      forall name | Packed(entries, base, name)
        ensures name in staging
      {
        var i :| 0 <= i < |entries| && PackedName(entries[i], base) == Some(name);
        assert EntryMatches(entries[i], base, staging, digest);
      }
      forall i | 0 <= i < |entries|
        ensures entries[i].kind == Directory
             || (&& entries[i].kind == Regular && |entries[i].path| >= 2 && entries[i].path[0] == base
                 && entries[i].path[1..] in staging && staging[entries[i].path[1..]] == entries[i].content)
      {
        assert EntryMatches(entries[i], base, staging, digest);
      }
      assert Packed(entries, base, RELEASE) && Packed(entries, base, SBOM);
    }
  }

  // The staged file that an entry unpacks to.
  ghost function Target<C>(e: Entry<C>, base: string): Option<Path> {
    match PackedName(e, base)
    case None => None
    case Some(name) => Some(Clean(name))
  }

  // No staged file is packed under two names.
  ghost predicate FilesOnce<C>(entries: seq<Entry<C>>, base: string) {
    forall i, j :: 0 <= i < j < |entries| && Target(entries[i], base).Some?
      ==> Target(entries[i], base) != Target(entries[j], base)
  }

  lemma PlainTargets<C>(e: Entry<C>, base: string)
    requires PackedName(e, base).Some? && Plain(PackedName(e, base).value)
    ensures Target(e, base) == PackedName(e, base)
  {
    PlainIsClean(PackedName(e, base).value);
  }

  // In general an accepted archive holds each staged file once exactly when all
  // its names are plain.
  lemma FilesOnceMeansPlainNames<C(!new), D>(
    entries: seq<Entry<C>>, intact: bool, base: string, staging: map<Path, C>, external: Option<C>, digest: C -> D)
    requires Tree(staging) && Checked(entries, intact, base, staging, external, digest)
    ensures FilesOnce(entries, base) <==> PlainNames(entries)
  {
    if PlainNames(entries) {
      PlainFilesOnce(entries, base);
    }
    if FilesOnce(entries, base) {
      forall i | 0 <= i < |entries| && entries[i].kind == Regular && |entries[i].path| >= 2
        ensures Plain(Name(entries[i].path))
      {
        assert EntryMatches(entries[i], base, staging, digest);
        OnceIsPlain(entries, base, i, staging);
      }
    }
  }

  lemma PlainFilesOnce<C>(entries: seq<Entry<C>>, base: string)
    requires PlainNames(entries) && NamesOnce(entries, base)
    ensures FilesOnce(entries, base)
  {
    forall i | 0 <= i < |entries| && Target(entries[i], base).Some?
      ensures Target(entries[i], base) == PackedName(entries[i], base)
    {
      PlainTargets(entries[i], base);
    }
  }

  lemma OnceIsPlain<C>(entries: seq<Entry<C>>, base: string, i: nat, staging: map<Path, C>)
    requires FilesOnce(entries, base) && Tree(staging)
    requires i < |entries| && Target(entries[i], base).Some?
    requires Target(entries[i], base).value in staging
    requires Packed(entries, base, Target(entries[i], base).value)
    ensures Plain(PackedName(entries[i], base).value)
  {
    var p := Target(entries[i], base).value;
    var j :| 0 <= j < |entries| && PackedName(entries[j], base) == Some(p);
    PlainTargets(entries[j], base);
  }

  // An accepted archive that packs one staged file twice.
  function AliasArchive(): seq<Entry<int>> {
    [Entry(["rel", "release.json"], Regular, 1),
     Entry(["rel", "SBOM.cdx.json"], Regular, 2),
     Entry(["rel", ".", "release.json"], Regular, 1)]
  }

  function AliasStaging(): map<Path, int> {
    map[RELEASE := 1, SBOM := 2]
  }

  lemma AliasNames()
    ensures Plain(RELEASE) && Plain(SBOM) && RELEASE != SBOM
    ensures Clean([".", "release.json"]) == RELEASE && Local([".", "release.json"])
  {
    assert |RELEASE[0]| == 12 && |SBOM[0]| == 13;
    PlainIsClean(RELEASE);
    assert [".", "release.json"][1..] == RELEASE;
  }

  lemma AliasPacked()
    ensures var entries := AliasArchive();
            && PackedName(entries[0], "rel") == Some(RELEASE)
            && PackedName(entries[1], "rel") == Some(SBOM)
            && PackedName(entries[2], "rel") == Some([".", "release.json"])
    ensures [".", "release.json"] != RELEASE && [".", "release.json"] != SBOM
    ensures AliasStaging()[RELEASE] == 1 && AliasStaging().Keys == {RELEASE, SBOM}
  {
    AliasNames();
    hide Clean, CleanOnto, Local;
  }

  lemma AliasMatches()
    ensures forall i :: 0 <= i < 3 ==> EntryMatches(AliasArchive()[i], "rel", AliasStaging(), (c: int) => c)
  {
    AliasNames();
    PlainIsClean(RELEASE);
    PlainIsClean(SBOM);
    hide Clean, CleanOnto, Local;
    assert AliasStaging()[RELEASE] == 1 && AliasStaging()[SBOM] == 2;
  }

  lemma AliasAccepted()
    ensures Tree(AliasStaging())
    ensures Checked(AliasArchive(), true, "rel", AliasStaging(), Some(2), (c: int) => c)
    ensures !FilesOnce(AliasArchive(), "rel")
  {
    var entries := AliasArchive();
    AliasNames();
    PlainIsClean(RELEASE);
    AliasPacked();
    AliasMatches();
    assert Target(entries[0], "rel") == Target(entries[2], "rel");
    hide Clean, CleanOnto, Local, PackedName, EntryMatches;
    assert AliasStaging()[SBOM] == 2;
    assert NamesOnce(entries, "rel");
  }
}
