/**
 The administrative-namespace test of the controller.

 The controller asks Go's `regexp.MatchString("kube-.*", name)`. That call is
 UNANCHORED: it reports whether some substring of `name` matches the pattern.
 Since `.*` may match the empty string, this is the same as asking whether
 `kube-` occurs anywhere in the name. This module gives both readings and
 proves that they agree.
 */
module Matching {

  /** The literal part of the pattern `kube-.*`. */
  const AdminPrefix: string := "kube-"

  /** `p` occurs in `s` starting at position `i`. */
  predicate OccursAt(p: string, s: string, i: nat)
  {
    i + |p| <= |s| && s[i..i + |p|] == p
  }

  /** `p` occurs in `s` at `from` or later. */
  ghost predicate OccursFrom(p: string, s: string, from: nat)
  {
    exists i: nat | from <= i :: OccursAt(p, s, i)
  }

  /** Substring search, trying each start position from `from` onwards, as
      an unanchored match tries each start position of the subject. */
  function ContainsFrom(p: string, s: string, from: nat): (r: bool)
    ensures r <==> OccursFrom(p, s, from)
    decreases |s| - from
  {
    if from + |p| > |s| then
      false
    else if s[from..from + |p|] == p then
      assert OccursAt(p, s, from);
      true
    else
      var rest := ContainsFrom(p, s, from + 1);
      assert forall i: nat | from <= i && OccursAt(p, s, i) :: from + 1 <= i;
      rest
  }

  /** A whole string `t` matches the regular expression `kube-.*` (RE2 syntax,
      where `.` is any character except a newline). */
  ghost predicate MatchesWhole(t: string)
  {
    |t| >= |AdminPrefix| && t[..|AdminPrefix|] == AdminPrefix &&
    forall k | |AdminPrefix| <= k < |t| :: t[k] != '\n'
  }

  /** The span `s[i..j]` matches `kube-.*`. */
  ghost predicate MatchesSpan(s: string, i: nat, j: nat)
  {
    i <= j <= |s| && MatchesWhole(s[i..j])
  }

  /** What the unanchored `regexp.MatchString("kube-.*", s)` reports. */
  ghost predicate RegexMatches(s: string)
  {
    exists i: nat, j: nat :: MatchesSpan(s, i, j)
  }

  /** A namespace is administrative when its name contains `kube-`. */
  predicate IsAdmin(name: string)
    ensures IsAdmin(name) <==> exists i: nat :: OccursAt(AdminPrefix, name, i)
  {
    ContainsFrom(AdminPrefix, name, 0)
  }

  /** The unanchored regular-expression match and the substring test agree,
      in both directions, on every name. */
  lemma RegexMatchIsSubstring(s: string)
    ensures RegexMatches(s) <==> IsAdmin(s)
  {
    var n := |AdminPrefix|;
    if RegexMatches(s) {
      var i: nat, j: nat :| MatchesSpan(s, i, j);
      assert s[i..i + n] == s[i..j][..n];
      assert OccursAt(AdminPrefix, s, i);
    }
    if IsAdmin(s) {
      var i: nat :| OccursAt(AdminPrefix, s, i);
      assert s[i..i + n][..n] == AdminPrefix;
      assert MatchesSpan(s, i, i + n);
    }
  }

  /** Only the occurrence of `kube-` matters, not where it stands: a name
      that contains it stays administrative whatever is put around it. */
  lemma {:induction false} AdminUnderExtension(pre: string, name: string, post: string)
    requires IsAdmin(name)
    ensures IsAdmin(pre + name + post)
  {
    var i: nat :| OccursAt(AdminPrefix, name, i);
    var s := pre + name + post;
    assert s[|pre| + i..|pre| + i + |AdminPrefix|] == name[i..i + |AdminPrefix|];
    assert OccursAt(AdminPrefix, s, |pre| + i);
  }

  /** Names that contain `kube-` are administrative wherever it stands. */
  lemma AdminExamples()
    ensures IsAdmin("kube-system") && IsAdmin("kube-public")
    ensures IsAdmin("my-kube-app")
  {
  }

  /** An occurrence of `kube-` at `i` puts `k` at `i` and `-` at `i + 4`. */
  lemma OccurrenceStartsWithKAndEndsWithDash(s: string, i: nat)
    requires OccursAt(AdminPrefix, s, i)
    ensures s[i] == 'k' && s[i + 4] == '-'
  {
    assert s[i..i + 5][0] == 'k' && s[i..i + 5][4] == '-';
  }

  /** A name in which no `k` is followed four places later by `-` has no
      `kube-` in it, so it is not administrative. */
  lemma NoKubeDash(s: string)
    requires forall i | 0 <= i && i + |AdminPrefix| <= |s| :: s[i] != 'k' || s[i + 4] != '-'
    ensures !IsAdmin(s)
  {
    if IsAdmin(s) {
      var i: nat :| OccursAt(AdminPrefix, s, i);
      OccurrenceStartsWithKAndEndsWithDash(s, i);
      assert false;
    }
  }

  /** Names without `kube-` are not: neither the bare `kube` nor `kubelet-…`,
      which a reader of the pattern might expect to be caught. */
  lemma NonAdminExamples()
    ensures !IsAdmin("kube") && !IsAdmin("kubelet-custom")
    ensures !IsAdmin("default") && !IsAdmin("team-a")
  {
    NoKubeDash("kube");
    NoKubeDash("kubelet-custom");
    NoKubeDash("default");
    NoKubeDash("team-a");
  }
}
