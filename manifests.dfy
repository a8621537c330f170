/**
  The artifact accumulator behind `appendManifestFile`: the ordered registry
  `CONF['CONFIG_MANIFESTFILES']` together with the manifest files on disk,
  as a value.
*/
module Manifests {
  import opened Text
  import opened OrderedSet

  /** `paths` is the registry, `files` maps a path to the text of that file. */
  datatype Artifacts = Artifacts(paths: seq<string>, files: map<string, string>)

  /** The text of a file; a file that does not exist reads as empty. */
  function Content(a: Artifacts, p: string): string {
    if p in a.files then a.files[p] else ""
  }

  /** Every registered path is registered once and names a file that has been written. */
  predicate WellFormed(a: Artifacts) {
    && NoDuplicates(a.paths)
    && forall p :: p in a.paths ==> p in a.files && a.files[p] != ""
  }

  /** Registering `path` if it is new, then opening it for append and writing
      "\n" followed by `data`. */
  function Append(a: Artifacts, path: string, data: string): Artifacts {
    Artifacts(AddNew(a.paths, path), a.files[path := Content(a, path) + "\n" + data])
  }

  /** The effect of a series of `(path, data)` appends, in call order. */
  function AppendAll(a: Artifacts, writes: seq<(string, string)>): Artifacts
    decreases |writes|
  {
    if |writes| == 0 then a
    else
      var last := writes[|writes| - 1];
      Append(AppendAll(a, writes[..|writes| - 1]), last.0, last.1)
  }

  /** The paths written to, in call order. */
  function Targets(writes: seq<(string, string)>): (ts: seq<string>)
    ensures |ts| == |writes|
    ensures forall i :: 0 <= i < |writes| ==> ts[i] == writes[i].0
    decreases |writes|
  {
    if |writes| == 0 then [] else Targets(writes[..|writes| - 1]) + [writes[|writes| - 1].0]
  }

  /** What a series of appends writes to `p`: "\n" + data per call, in call order. */
  function Fragments(writes: seq<(string, string)>, p: string): string
    decreases |writes|
  {
    if |writes| == 0 then ""
    else
      var last := writes[|writes| - 1];
      Fragments(writes[..|writes| - 1], p) + (if last.0 == p then "\n" + last.1 else "")
  }

  /** An append keeps the registry duplicate-free and every registered file non-empty. */
  lemma {:induction false} AppendWellFormed(a: Artifacts, path: string, data: string)
    requires WellFormed(a)
    ensures WellFormed(Append(a, path, data))
    ensures path in Append(a, path, data).paths
    ensures Content(Append(a, path, data), path) != ""
  {
  }

  /** Two appends to one file: the file ends in "\n" + first + "\n" + second, and the
      path is registered once, where the first append put it. */
  lemma {:induction false} AppendTwice(a: Artifacts, p: string, x: string, y: string)
    requires WellFormed(a)
    ensures Content(Append(Append(a, p, x), p, y), p) == Content(a, p) + "\n" + x + "\n" + y
    ensures Append(Append(a, p, x), p, y).paths == AddNew(a.paths, p)
    ensures WellFormed(Append(Append(a, p, x), p, y))
  {
  }

  /** The accumulator contract: the registry gains each written path once, in the
      order of first write, behind the entries it already had; each file gains the
      fragments written to it in call order; and the registry stays well formed. */
  lemma {:induction false} AppendAllEffect(a: Artifacts, writes: seq<(string, string)>, p: string)
    requires WellFormed(a)
    ensures AppendAll(a, writes).paths == AddAll(a.paths, Targets(writes))
    ensures Content(AppendAll(a, writes), p) == Content(a, p) + Fragments(writes, p)
    ensures WellFormed(AppendAll(a, writes))
    decreases |writes|
  {
    if |writes| > 0 {
      var init := writes[..|writes| - 1];
      var last := writes[|writes| - 1];
      AppendAllEffect(a, init, p);
      assert Targets(writes)[..|writes| - 1] == Targets(init);
      var before := AppendAll(a, init);
      AppendWellFormed(before, last.0, last.1);
      if last.0 == p {
        ConcatAssoc(Content(before, p), "\n", last.1);
        ConcatAssoc(Content(a, p), Fragments(init, p), "\n" + last.1);
      } else {
        assert Fragments(writes, p) == Fragments(init, p) + "";
      }
    }
  }

  /** A registered path `p` is canonical when re-joining its basename to the
      manifest directory gives `p` back. */
  predicate Canonical(dir: string, p: string) {
    PathJoin(dir, Basename(p)) == p
  }

  /** Joining a '/'-free name to the directory gives a canonical path. */
  lemma {:induction false} JoinedNameIsCanonical(dir: string, name: string)
    requires '/' !in name
    ensures Canonical(dir, PathJoin(dir, name))
  {
    BasenameOfPathJoin(dir, name);
  }

  /** Re-joining the basename of any path gives a canonical path. */
  lemma {:induction false} RejoinedIsCanonical(dir: string, p: string)
    ensures Canonical(dir, PathJoin(dir, Basename(p)))
  {
    BasenameIsLastSegment(p);
    JoinedNameIsCanonical(dir, Basename(p));
  }

  function NonCanonicalCount(dir: string, s: seq<string>): nat
    decreases |s|
  {
    if |s| == 0 then 0
    else (if Canonical(dir, s[0]) then 0 else 1) + NonCanonicalCount(dir, s[1..])
  }

  lemma {:induction false} NonCanonicalCountAppend(dir: string, s: seq<string>, x: string)
    ensures NonCanonicalCount(dir, s + [x]) ==
      NonCanonicalCount(dir, s) + (if Canonical(dir, x) then 0 else 1)
    decreases |s|
  {
    if |s| > 0 {
      assert (s + [x])[1..] == s[1..] + [x];
      NonCanonicalCountAppend(dir, s[1..], x);
    }
  }

  /** Registering a re-joined path adds no non-canonical path. */
  lemma {:induction false} AppendRejoined(dir: string, s: seq<string>, p: string)
    ensures NonCanonicalCount(dir, s + [PathJoin(dir, Basename(p))]) == NonCanonicalCount(dir, s)
  {
    RejoinedIsCanonical(dir, p);
    NonCanonicalCountAppend(dir, s, PathJoin(dir, Basename(p)));
  }
}
