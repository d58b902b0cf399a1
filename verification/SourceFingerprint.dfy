// The canonical fingerprint of the build inputs. The payload that is hashed is
// the sorted list of (path, digest) entries; its JSON text and the outer hash
// are injective and left out.
module SourceFingerprint {
  import opened Wrappers
  import opened Ordering

  type Path = seq<string>

  // A directory lists its children in the order in which they are visited.
  datatype Node<C> = File(content: C) | Link | Dir(children: seq<Child<C>>)
  datatype Child<C> = Child(name: string, node: Node<C>)

  datatype Found<C> = Found(path: Path, content: C)
  datatype Entry<D> = Entry(path: string, digest: D)

  const INPUTS: seq<Path> := [
    ["cmd"], ["internal"], ["pkg"], ["migrations"], ["api"], ["sdk"], ["web"], ["scripts"], ["deploy"],
    ["go.mod"], ["go.sum"], ["package.json"], ["pnpm-lock.yaml"], ["pnpm-workspace.yaml"], ["compose.yaml"],
    ["Makefile"], ["LICENSE"], ["NOTICE"], ["docs", "SECURITY.md"]]

  const SKIPPED: set<string> := {"node_modules", "dist", "test-results", "playwright-report"}

  // filepath.ToSlash of a relative path
  function Join(path: Path): string {
    if path == [] then ""
    else if |path| == 1 then path[0]
    else path[0] + "/" + Join(path[1..])
  }

  // File names hold no "/", and a directory holds each name once.
  ghost predicate FileTree<C>(node: Node<C>) {
    node.Dir? ==>
      && (forall i :: 0 <= i < |node.children| ==> '/' !in node.children[i].name && FileTree(node.children[i].node))
      && (forall i, j :: 0 <= i < j < |node.children| ==> node.children[i].name != node.children[j].name)
  }

  function Find<C>(node: Node<C>, path: Path): Option<Node<C>>
    decreases |path|
  {
    if path == [] then Some(node)
    else if !node.Dir? then None
    else
      match FindChild(node.children, path[0])
      case None => None
      case Some(child) => Find(child, path[1..])
  }

  function FindChild<C>(children: seq<Child<C>>, name: string): Option<Node<C>> {
    if children == [] then None
    else if children[0].name == name then Some(children[0].node)
    else FindChild(children[1..], name)
  }

  // ---- What is included ----

  // The file at rel under a node called name, with no skipped directory on the way.
  ghost predicate Holds<C>(name: string, node: Node<C>, rel: Path, content: C)
    decreases node
  {
    match node
    case File(c) => rel == [] && c == content
    case Link => false
    case Dir(children) =>
      && name !in SKIPPED && rel != []
      && exists i :: 0 <= i < |children| && children[i].name == rel[0]
                     && Holds(children[i].name, children[i].node, rel[1..], content)
  }

  ghost predicate HoldsLink<C>(name: string, node: Node<C>)
    decreases node
  {
    match node
    case File(c) => false
    case Link => true
    case Dir(children) =>
      name !in SKIPPED && exists i :: 0 <= i < |children| && HoldsLink(children[i].name, children[i].node)
  }

  ghost predicate HoldsFrom<C>(root: Node<C>, input: Path, path: Path, content: C)
    requires input != []
  {
    && input <= path
    && Find(root, input).Some?
    && Holds(input[|input| - 1], Find(root, input).value, path[|input|..], content)
  }

  ghost predicate Included<C>(root: Node<C>, inputs: seq<Path>, path: Path, content: C)
    requires InputList(inputs)
  {
    exists k :: 0 <= k < |inputs| && HoldsFrom(root, inputs[k], path, content)
  }

  // Inputs are not nested in one another.
  ghost predicate InputList(inputs: seq<Path>) {
    && (forall k :: 0 <= k < |inputs| ==> inputs[k] != [] && forall i :: 0 <= i < |inputs[k]| ==> '/' !in inputs[k][i])
    && (forall k, l :: 0 <= k < l < |inputs| ==> !(inputs[k] <= inputs[l]) && !(inputs[l] <= inputs[k]))
  }

  ghost predicate Readable<C>(root: Node<C>, inputs: seq<Path>)
    requires InputList(inputs)
  {
    forall k :: 0 <= k < |inputs| ==>
      && Find(root, inputs[k]).Some?
      && !HoldsLink(inputs[k][|inputs[k]| - 1], Find(root, inputs[k]).value)
  }

  // ---- The walk ----

  function Collect<C>(path: Path, node: Node<C>): Option<seq<Found<C>>>
    requires path != []
    decreases node, 0
  {
    match node
    case File(c) => Some([Found(path, c)])
    case Link => None
    case Dir(children) => if path[|path| - 1] in SKIPPED then Some([]) else CollectAll(path, children)
  }

  function CollectAll<C>(path: Path, children: seq<Child<C>>): Option<seq<Found<C>>>
    decreases children, 0
  {
    if children == [] then Some([])
    else Append(Collect(path + [children[0].name], children[0].node), CollectAll(path, children[1..]))
  }

  function CollectInputs<C>(root: Node<C>, inputs: seq<Path>): Option<seq<Found<C>>>
    requires InputList(inputs)
  {
    if inputs == [] then Some([])
    else
      match Find(root, inputs[0])
      case None => None
      case Some(node) => Append(Collect(inputs[0], node), CollectInputs(root, inputs[1..]))
  }

  function Append<T>(a: Option<seq<T>>, b: Option<seq<T>>): (r: Option<seq<T>>)
    ensures a == Some([]) ==> r == b
  {
    if a.None? || b.None? then None
    else
      assert a.value == [] ==> a.value + b.value == b.value;
      Some(a.value + b.value)
  }

  function Render<C, D>(found: seq<Found<C>>, digest: C -> D): (r: seq<Entry<D>>)
    ensures |r| == |found|
    ensures forall i :: 0 <= i < |r| ==> r[i] == Entry(Join(found[i].path), digest(found[i].content))
  {
    seq(|found|, i requires 0 <= i < |found| => Entry(Join(found[i].path), digest(found[i].content)))
  }

  predicate EntryLeq<D>(a: Entry<D>, b: Entry<D>) {
    LexLeq(Codes(a.path), Codes(b.path))
  }

  function Payload<C, D>(root: Node<C>, inputs: seq<Path>, digest: C -> D): Option<seq<Entry<D>>>
    requires InputList(inputs)
  {
    match CollectInputs(root, inputs)
    case None => None
    case Some(found) => Some(Sort(EntryLeq, Render(found, digest)))
  }

  // filepath.WalkDir over one node: files are appended, a symlink stops the walk.
  method WalkDir<C, D>(path: Path, node: Node<C>, digest: C -> D, before: seq<Entry<D>>)
    returns (ok: bool, files: seq<Entry<D>>)
    requires path != []
    ensures ok <==> Collect(path, node).Some?
    ensures ok ==> files == before + Render(Collect(path, node).value, digest)
    decreases node
  {
    files := before;
    match node {
      case File(content) =>
        files := files + [Entry(Join(path), digest(content))];
        return true, files;
      case Link =>
        return false, files;
      case Dir(children) =>
        if path[|path| - 1] in SKIPPED {
          assert files == before + [];
          return true, files;
        }
        ok := true;
        ghost var done: seq<Found<C>> := [];
        assert children[0..] == children;
        for i := 0 to |children|
          invariant ok
          invariant files == before + Render(done, digest)
          invariant CollectAll(path, children) == Append(Some(done), CollectAll(path, children[i..]))
        {
          var child := children[i];
          ok, files := WalkDir(path + [child.name], child.node, digest, files);
          assert children[i..][1..] == children[i + 1..];
          if !ok {
            return;
          }
          ghost var more := Collect(path + [child.name], child.node).value;
          RenderAppend(done, more, digest);
          AppendAssoc(done, Some(more), CollectAll(path, children[i + 1..]));
          done := done + more;
        }
        assert CollectAll(path, children[|children|..]) == Some([]);
    }
  }

  lemma AppendAssoc<T>(a: seq<T>, b: Option<seq<T>>, c: Option<seq<T>>)
    requires b.Some?
    ensures Append(Some(a), Append(b, c)) == Append(Some(a + b.value), c)
  {
    if c.Some? {
      assert a + (b.value + c.value) == a + b.value + c.value;
    }
  }

  lemma RenderAppend<C, D>(a: seq<Found<C>>, b: seq<Found<C>>, digest: C -> D)
    ensures Render(a + b, digest) == Render(a, digest) + Render(b, digest)
  {
  }

  // The inputs are told apart by length, first and last character.
  function Tag(name: string): int
    requires name != ""
  {
    |name| * 1_000_000 + (name[0] as int) * 1000 + (name[|name| - 1] as int)
  }

  const TAGS: seq<int> :=
    [3099100, 8105108, 3112103, 10109115, 3097105, 3115107, 3119098, 7115115, 6100121, 6103100, 6103109,
     12112110, 14112108, 19112108, 12099108, 8077101, 7076069, 6078069, 4100115]

  lemma InputTag(k: nat)
    requires k < |INPUTS|
    ensures INPUTS[k] != [] && INPUTS[k][0] != "" && Tag(INPUTS[k][0]) == TAGS[k]
  {
  }

  lemma InputSegments(k: nat)
    requires k < |INPUTS|
    ensures forall i :: 0 <= i < |INPUTS[k]| ==> '/' !in INPUTS[k][i]
  {
  }

  lemma TagsDiffer(k: nat, l: nat)
    requires k < l < |TAGS|
    ensures TAGS[k] != TAGS[l]
  {
  }

  lemma InputsAreSeparate()
    ensures InputList(INPUTS)
  {
    forall k | 0 <= k < |INPUTS|
      ensures INPUTS[k] != [] && INPUTS[k][0] != "" && Tag(INPUTS[k][0]) == TAGS[k]
      ensures forall i :: 0 <= i < |INPUTS[k]| ==> '/' !in INPUTS[k][i]
    {
      InputTag(k);
      InputSegments(k);
    }
    hide INPUTS, TAGS, Tag;
    forall k, l | 0 <= k < l < |INPUTS|
      ensures !(INPUTS[k] <= INPUTS[l]) && !(INPUTS[l] <= INPUTS[k])
    {
      TagsDiffer(k, l);
      assert INPUTS[k][0] != INPUTS[l][0];
    }
  }

  method SourceFingerprint<C, D>(root: Node<C>, digest: C -> D) returns (payload: Option<seq<Entry<D>>>)
    ensures InputList(INPUTS)
    ensures payload == Payload(root, INPUTS, digest)
  {
    InputsAreSeparate();
    payload := Fingerprint(root, INPUTS, digest);
  }

  method Fingerprint<C, D>(root: Node<C>, inputs: seq<Path>, digest: C -> D) returns (payload: Option<seq<Entry<D>>>)
    requires InputList(inputs)
    ensures payload == Payload(root, inputs, digest)
  {
    var files: seq<Entry<D>> := [];
    ghost var done: seq<Found<C>> := [];
    assert inputs[0..] == inputs;
    for k := 0 to |inputs|
      invariant InputList(inputs[k..])
      invariant files == Render(done, digest)
      invariant CollectInputs(root, inputs) == Append(Some(done), CollectInputs(root, inputs[k..]))
    {
      assert inputs[k..][1..] == inputs[k + 1..];
      var node := Find(root, inputs[k]);
      if node.None? {
        return None;
      }
      var ok;
      ok, files := WalkDir(inputs[k], node.value, digest, files);
      if !ok {
        return None;
      }
      ghost var more := Collect(inputs[k], node.value).value;
      RenderAppend(done, more, digest);
      AppendAssoc(done, Some(more), CollectInputs(root, inputs[k + 1..]));
      done := done + more;
    }
    assert CollectInputs(root, inputs[|inputs|..]) == Some([]);
    assert done + [] == done;
    return Some(Sort(EntryLeq, files));
  }
}
