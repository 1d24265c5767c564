/** The mail templates both controllers fill in: each `{{placeholder}}` is
    replaced, one placeholder after the other, by `preg_replace` with a
    pattern that matches the placeholder literally, so every step is a
    left-to-right, non-overlapping replace-all. The replacement text is taken
    literally here; `preg_replace` would also expand `$1`, `\1` and `${1}`
    in it. */
module Templates {

  /** `needle` occurs in `s` starting at `i`. */
  predicate OccursAt(s: string, needle: string, i: nat) {
    i + |needle| <= |s| && s[i..i + |needle|] == needle
  }

  ghost predicate Occurs(s: string, needle: string) {
    exists i: nat :: OccursAt(s, needle, i)
  }

  /** Replace every occurrence of `pat`, scanning left to right and resuming
      after each replaced occurrence. */
  function ReplaceAll(s: string, pat: string, rep: string): string
    requires |pat| > 0
    decreases |s|
  {
    if |s| < |pat| then s
    else if s[..|pat|] == pat then rep + ReplaceAll(s[|pat|..], pat, rep)
    else [s[0]] + ReplaceAll(s[1..], pat, rep)
  }

  /** A string without the pattern comes back unchanged. */
  lemma {:induction false} ReplaceAllAbsent(s: string, pat: string, rep: string)
    requires |pat| > 0 && !Occurs(s, pat)
    ensures ReplaceAll(s, pat, rep) == s
  {
    if |s| >= |pat| {
      assert !OccursAt(s, pat, 0);
      AbsentInTail(s, pat);
      ReplaceAllAbsent(s[1..], pat, rep);
    }
  }

  /** Dropping the first character cannot create an occurrence. */
  lemma AbsentInTail(t: string, pat: string)
    requires |t| > 0 && !Occurs(t, pat)
    ensures !Occurs(t[1..], pat)
  {
    var tail := t[1..];
    forall i: nat | OccursAt(tail, pat, i) ensures false {
      assert t[i + 1..i + 1 + |pat|] == tail[i..i + |pat|];
      assert OccursAt(t, pat, i + 1);
    }
  }

  /** When `pat` does not start inside `a`, it does not start at the front of
      `a + pat + b`, nor inside `a` without its first character. */
  lemma NoOccurrenceInPrefix(a: string, pat: string, b: string)
    requires |pat| > 0 && |a| > 0
    requires !Occurs(a + pat[..|pat| - 1], pat)
    ensures (a + pat + b)[..|pat|] != pat
    ensures !Occurs(a[1..] + pat[..|pat| - 1], pat)
  {
    var t := a + pat[..|pat| - 1];
    assert t[..|pat|] == (a + pat + b)[..|pat|];
    assert !OccursAt(t, pat, 0);
    AbsentInTail(t, pat);
    assert t[1..] == a[1..] + pat[..|pat| - 1];
  }

  /** When `pat` does not start anywhere inside `a` (an occurrence starting in
      `a` would end before the copy of `pat` that follows it), the first
      occurrence in `a + pat + b` is that copy: it is replaced and the scan
      resumes on `b`. */
  lemma {:induction false} ReplaceAllFirst(a: string, pat: string, b: string, rep: string)
    requires |pat| > 0
    requires !Occurs(a + pat[..|pat| - 1], pat)
    ensures ReplaceAll(a + pat + b, pat, rep) == a + rep + ReplaceAll(b, pat, rep)
    decreases |a|
  {
    if a == [] {
      ReplaceAllAtFront(pat, b, rep);
    } else {
      NoOccurrenceInPrefix(a, pat, b);
      var tail := a[1..] + pat + b;
      assert (a + pat + b)[1..] == tail;
      ReplaceAllSkip(a + pat + b, pat, rep);
      ReplaceAllFirst(a[1..], pat, b, rep);
      var rest := ReplaceAll(b, pat, rep);
      assert a == [a[0]] + a[1..];
      SeqAssoc([a[0]], a[1..] + rep, rest);
      SeqAssoc([a[0]], a[1..], rep);
    }
  }

  /** Concatenation is associative. */
  lemma SeqAssoc(x: string, y: string, z: string)
    ensures x + (y + z) == (x + y) + z
  {
  }

  lemma ReplaceAllAtFront(pat: string, b: string, rep: string)
    requires |pat| > 0
    ensures ReplaceAll(pat + b, pat, rep) == rep + ReplaceAll(b, pat, rep)
  {
    assert (pat + b)[..|pat|] == pat;
    assert (pat + b)[|pat|..] == b;
  }

  lemma ReplaceAllSkip(s: string, pat: string, rep: string)
    requires |pat| > 0 && |s| >= |pat| && s[..|pat|] != pat
    ensures ReplaceAll(s, pat, rep) == [s[0]] + ReplaceAll(s[1..], pat, rep)
  {
  }

  /** The placeholders of a template, each with the text that replaces it,
      in the order the controller substitutes them. */
  type Substitutions = seq<(string, string)>

  predicate WellFormed(subs: Substitutions) {
    forall i :: 0 <= i < |subs| ==> |subs[i].0| > 0
  }

  /** The body after every substitution, applied in order. */
  function Substitute(template: string, subs: Substitutions): string
    requires WellFormed(subs)
    decreases |subs|
  {
    if subs == [] then template
    else Substitute(ReplaceAll(template, subs[0].0, subs[0].1), subs[1..])
  }

  /** A template mentioning none of the placeholders is sent as it is. */
  lemma {:induction false} SubstituteNoPlaceholders(template: string, subs: Substitutions)
    requires WellFormed(subs)
    requires forall i :: 0 <= i < |subs| ==> !Occurs(template, subs[i].0)
    ensures Substitute(template, subs) == template
    decreases |subs|
  {
    if subs != [] {
      ReplaceAllAbsent(template, subs[0].0, subs[0].1);
      SubstituteNoPlaceholders(template, subs[1..]);
    }
  }

  /** A string shorter than the pattern cannot contain it. */
  lemma ShortAbsent(s: string, pat: string)
    requires |s| < |pat|
    ensures !Occurs(s, pat)
  {
    forall i: nat ensures !OccursAt(s, pat, i) {
    }
  }

  /** The substitution is sequential: when one placeholder is filled in with
      the text of a later placeholder, that text is replaced in turn. */
  lemma SubstituteIsSequential(first: string, second: string, rep: string)
    requires |first| > 0 && |second| > 0
    ensures Substitute(first, [(first, second), (second, rep)]) == rep
  {
    var subs := [(first, second), (second, rep)];
    ShortAbsent(first[..|first| - 1], first);
    ReplaceAllFirst("", first, "", second);
    assert "" + first + "" == first && "" + second + "" == second;
    ShortAbsent(second[..|second| - 1], second);
    ReplaceAllFirst("", second, "", rep);
    assert "" + rep + "" == rep;
    calc {
      Substitute(first, subs);
      { assert subs[1..] == [(second, rep)]; }
      Substitute(ReplaceAll(first, first, second), [(second, rep)]);
      Substitute(second, [(second, rep)]);
      Substitute(ReplaceAll(second, second, rep), []);
    }
  }

  /** The loop that reads each template file and pushes its filled-in body
      onto `$bodies`. */
  method RenderBodies(urls: seq<string>, read: string -> string, subs: Substitutions)
    returns (bodies: seq<string>)
    requires WellFormed(subs)
    ensures |bodies| == |urls|
    ensures forall i :: 0 <= i < |urls| ==> bodies[i] == Substitute(read(urls[i]), subs)
  {
    bodies := [];
    for i := 0 to |urls|
      invariant |bodies| == i
      invariant forall j :: 0 <= j < i ==> bodies[j] == Substitute(read(urls[j]), subs)
    {
      var body := Substitute(read(urls[i]), subs);
      bodies := bodies + [body];
    }
  }
}
