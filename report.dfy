/** A report built by pushing lines in a fixed order of sections: the lines of
    section 0, then those of section 1, and so on, where each line of section `k`
    begins with that section's label. When no label begins with another, a line
    tells which section it came from, so which labels occur and in which order
    can be read off the lines themselves. */
module Report {
  import opened Strings

  /** The sections' lines, section after section. */
  function Flatten(segs: seq<seq<string>>): seq<string> {
    if segs == [] then [] else Flatten(segs[..|segs| - 1]) + segs[|segs| - 1]
  }

  /** Where section `k` starts among the lines. */
  function Offset(segs: seq<seq<string>>, k: nat): nat
    requires k <= |segs|
  {
    |Flatten(segs[..k])|
  }

  /** Every line begins with `head`. */
  ghost predicate AllBegin(lines: seq<string>, head: string) {
    forall m :: 0 <= m < |lines| ==> HasPrefix(lines[m], head)
  }

  /** Every line of section `k` begins with label `k`. */
  ghost predicate Labelled(segs: seq<seq<string>>, labels: seq<string>) {
    |segs| == |labels| &&
    forall k :: 0 <= k < |segs| ==> AllBegin(segs[k], labels[k])
  }

  /** A section of one line, `head` followed by its body. */
  lemma OneLine(head: string, body: string)
    ensures AllBegin([head + body], head)
  {
    PrefixOfConcat(head, body);
  }

  /** Pushing a section whose lines all begin with `head` keeps the report labelled. */
  lemma LabelledAppend(segs: seq<seq<string>>, labels: seq<string>, s: seq<string>, head: string)
    requires Labelled(segs, labels) && AllBegin(s, head)
    ensures Labelled(segs + [s], labels + [head])
  {
    forall k | 0 <= k < |segs| + 1 ensures AllBegin((segs + [s])[k], (labels + [head])[k]) {
      if k < |segs| {
        assert (segs + [s])[k] == segs[k] && (labels + [head])[k] == labels[k];
      }
    }
  }

  /** Every section has at most one line. */
  ghost predicate Single(segs: seq<seq<string>>) {
    forall k :: 0 <= k < |segs| ==> |segs[k]| <= 1
  }

  /** Pushing a section of at most one line keeps every section single. */
  lemma SingleAppend(segs: seq<seq<string>>, s: seq<string>)
    requires Single(segs) && |s| <= 1
    ensures Single(segs + [s])
  {
    forall k | 0 <= k < |segs| + 1 ensures |(segs + [s])[k]| <= 1 {
      if k < |segs| {
        assert (segs + [s])[k] == segs[k];
      }
    }
  }

  /** Pushing any section leaves the earlier single sections single. */
  lemma SingleBefore(segs: seq<seq<string>>, s: seq<string>)
    requires Single(segs)
    ensures forall k :: 0 <= k < |segs| ==> |(segs + [s])[k]| <= 1
  {
    forall k | 0 <= k < |segs| ensures |(segs + [s])[k]| <= 1 {
      assert (segs + [s])[k] == segs[k];
    }
  }

  /** No label begins with a different one. */
  ghost predicate PrefixFree(labels: seq<string>) {
    forall j, k :: 0 <= j < |labels| && 0 <= k < |labels| && j != k ==> !HasPrefix(labels[j], labels[k])
  }

  /** Two strings that differ at a position both have are not prefixes of one another. */
  lemma DifferAt(p: string, q: string, i: nat)
    requires i < |p| && i < |q| && p[i] != q[i]
    ensures !HasPrefix(p, q) && !HasPrefix(q, p)
  {
    if |q| <= |p| { assert p[..|q|][i] == p[i]; }
    if |p| <= |q| { assert q[..|p|][i] == q[i]; }
  }

  /** Pushing one more section appends its lines. */
  lemma FlattenStep(segs: seq<seq<string>>, k: nat)
    requires k < |segs|
    ensures Flatten(segs[..k + 1]) == Flatten(segs[..k]) + segs[k]
  {
    assert segs[..k + 1][..k] == segs[..k];
  }

  /** The lines of one section. */
  lemma FlattenOne(s: seq<string>)
    ensures Flatten([s]) == s
  {
    assert [s][..0] == [];
  }

  /** Pushing one more section appends its lines. */
  lemma FlattenAppend(segs: seq<seq<string>>, s: seq<string>)
    ensures Flatten(segs + [s]) == Flatten(segs) + s
  {
    assert (segs + [s])[..|segs|] == segs;
  }

  /** Pushing every section gives the whole report. */
  lemma FlattenAll(segs: seq<seq<string>>)
    ensures Flatten(segs[..|segs|]) == Flatten(segs)
  {
    assert segs[..|segs|] == segs;
  }

  /** Offsets grow with the section index, by the size of each section. */
  lemma {:induction false} OffsetMonotone(segs: seq<seq<string>>, j: nat, k: nat)
    requires j <= |segs| && k <= |segs|
    ensures j <= k ==> Offset(segs, j) <= Offset(segs, k)
    ensures k < |segs| ==> Offset(segs, k + 1) == Offset(segs, k) + |segs[k]|
    decreases k
  {
    if k < |segs| {
      FlattenStep(segs, k);
    }
    if j < k {
      OffsetMonotone(segs, j, k - 1);
      FlattenStep(segs, k - 1);
    }
  }

  /** Line `m` of section `k` is line `Offset(segs, k) + m` of the report. */
  lemma {:induction false} FlattenAt(segs: seq<seq<string>>, k: nat, m: nat)
    requires k < |segs| && m < |segs[k]|
    ensures Offset(segs, k) + m < |Flatten(segs)|
    ensures Flatten(segs)[Offset(segs, k) + m] == segs[k][m]
    decreases |segs|
  {
    var n := |segs|;
    var init := segs[..n - 1];
    assert Flatten(segs) == Flatten(init) + segs[n - 1];
    if k < n - 1 {
      assert init[..k] == segs[..k];
      FlattenAt(init, k, m);
    } else {
      assert segs[..k] == init;
    }
  }

  /** The section line `i` of the report belongs to. */
  function SegmentOf(segs: seq<seq<string>>, i: nat): (k: nat)
    requires i < |Flatten(segs)|
    ensures k < |segs|
    ensures Offset(segs, k) <= i < Offset(segs, k) + |segs[k]|
    ensures Flatten(segs)[i] == segs[k][i - Offset(segs, k)]
    decreases |segs|
  {
    var n := |segs|;
    var init := segs[..n - 1];
    assert Flatten(segs) == Flatten(init) + segs[n - 1];
    if i >= |Flatten(init)| then
      assert segs[..n - 1] == init;
      n - 1
    else
      var k := SegmentOf(init, i);
      assert init[..k] == segs[..k];
      k
  }

  /** Later lines belong to the same or a later section. */
  lemma SegmentOfMonotone(segs: seq<seq<string>>, i: nat, j: nat)
    requires i <= j < |Flatten(segs)|
    ensures SegmentOf(segs, i) <= SegmentOf(segs, j)
  {
    var a, b := SegmentOf(segs, i), SegmentOf(segs, j);
    OffsetMonotone(segs, b + 1, a);
    OffsetMonotone(segs, a, b);
  }

  /** A string begins with two prefixes only if one of them begins with the other. */
  lemma PrefixesComparable(s: string, p: string, q: string)
    requires HasPrefix(s, p) && HasPrefix(s, q)
    ensures HasPrefix(p, q) || HasPrefix(q, p)
  {
    if |q| <= |p| {
      assert p[..|q|] == s[..|p|][..|q|];
    } else {
      assert q[..|p|] == s[..|q|][..|p|];
    }
  }

  /** With prefix-free labels a line begins with at most one of them. */
  lemma SameLabel(labels: seq<string>, s: string, j: nat, k: nat)
    requires PrefixFree(labels) && j < |labels| && k < |labels|
    requires HasPrefix(s, labels[j]) && HasPrefix(s, labels[k])
    ensures j == k
  {
    PrefixesComparable(s, labels[j], labels[k]);
  }

  /** Line `i` begins with the label of its own section. */
  lemma LineLabel(segs: seq<seq<string>>, labels: seq<string>, i: nat)
    requires Labelled(segs, labels) && i < |Flatten(segs)|
    ensures HasPrefix(Flatten(segs)[i], labels[SegmentOf(segs, i)])
  {
    var k := SegmentOf(segs, i);
    assert AllBegin(segs[k], labels[k]);
    assert HasPrefix(segs[k][i - Offset(segs, k)], labels[k]);
  }

  /** Some line begins with label `k` exactly when section `k` is not empty. */
  lemma MentionsIff(segs: seq<seq<string>>, labels: seq<string>, k: nat)
    requires Labelled(segs, labels) && PrefixFree(labels) && k < |labels|
    ensures (exists i :: 0 <= i < |Flatten(segs)| && HasPrefix(Flatten(segs)[i], labels[k])) <==> segs[k] != []
  {
    var lines := Flatten(segs);
    if segs[k] != [] {
      FlattenAt(segs, k, 0);
      assert HasPrefix(lines[Offset(segs, k)], labels[k]);
    }
    forall i | 0 <= i < |lines| && HasPrefix(lines[i], labels[k]) ensures segs[k] != [] {
      LineLabel(segs, labels, i);
      SameLabel(labels, lines[i], SegmentOf(segs, i), k);
    }
  }

  /** A line with label `a` before a line with label `b` means section `a` comes no
      later than section `b`. */
  lemma LabelsInOrder(segs: seq<seq<string>>, labels: seq<string>, i: nat, j: nat, a: nat, b: nat)
    requires Labelled(segs, labels) && PrefixFree(labels) && a < |labels| && b < |labels|
    requires i <= j < |Flatten(segs)|
    requires HasPrefix(Flatten(segs)[i], labels[a]) && HasPrefix(Flatten(segs)[j], labels[b])
    ensures a <= b
  {
    LineLabel(segs, labels, i);
    LineLabel(segs, labels, j);
    SameLabel(labels, Flatten(segs)[i], SegmentOf(segs, i), a);
    SameLabel(labels, Flatten(segs)[j], SegmentOf(segs, j), b);
    SegmentOfMonotone(segs, i, j);
  }

  /** Labels that all differ in their first character are prefix-free. */
  lemma FirstCharsDiffer(labels: seq<string>)
    requires forall k :: 0 <= k < |labels| ==> labels[k] != []
    requires forall j, k :: 0 <= j < k < |labels| ==> labels[j][0] != labels[k][0]
    ensures PrefixFree(labels)
  {
    forall j, k | 0 <= j < |labels| && 0 <= k < |labels| && j != k
      ensures !HasPrefix(labels[j], labels[k])
    {
      DifferAt(labels[j], labels[k], 0);
    }
  }

  /** A section of at most one line: its label occurs on one line at most. */
  lemma AtMostOnce(segs: seq<seq<string>>, labels: seq<string>, k: nat, i: nat, j: nat)
    requires Labelled(segs, labels) && PrefixFree(labels) && k < |labels| && |segs[k]| <= 1
    requires i < |Flatten(segs)| && j < |Flatten(segs)|
    requires HasPrefix(Flatten(segs)[i], labels[k]) && HasPrefix(Flatten(segs)[j], labels[k])
    ensures i == j
  {
    LineLabel(segs, labels, i);
    LineLabel(segs, labels, j);
    SameLabel(labels, Flatten(segs)[i], SegmentOf(segs, i), k);
    SameLabel(labels, Flatten(segs)[j], SegmentOf(segs, j), k);
  }
}
