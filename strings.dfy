/**
 * Literal text tests used by the classifier.
 *
 * The route builds two regular expressions by interpolating area labels.
 * The labels hold no metacharacters, so each pattern reduces to a test on
 * plain text: `.*label.*` is substring containment, and
 * `^(?!.*(?:l1|l2|...)).*$` holds exactly when the name has no line
 * terminator (`.` and `$` stop at one) and contains none of the labels.
 */
module Strings {

  /** `p` is a prefix of `s`. */
  predicate IsPrefix(p: string, s: string) {
    |p| <= |s| && s[..|p|] == p
  }

  /** `t` occurs in `s` starting at index `i`. */
  ghost predicate OccursAt(s: string, t: string, i: int) {
    0 <= i && i + |t| <= |s| && s[i..i + |t|] == t
  }

  /** `t` is a substring of `s`; what `new RegExp(`.*${t}.*`).test(s)` decides
      for a metacharacter-free `t` without line terminators. */
  predicate Contains(s: string, t: string)
    decreases |s|
  {
    IsPrefix(t, s) || (|s| > 0 && Contains(s[1..], t))
  }

  /** An occurrence in the tail of `s` is an occurrence one place further in `s`. */
  lemma OccursInTail(s: string, t: string, i: int)
    requires |s| > 0 && OccursAt(s[1..], t, i)
    ensures OccursAt(s, t, i + 1)
  {
    assert s[1..][i..i + |t|] == s[i + 1..i + 1 + |t|];
  }

  /** An occurrence past the first place of `s` is an occurrence in its tail. */
  lemma OccursPastHead(s: string, t: string, i: int)
    requires i > 0 && OccursAt(s, t, i)
    ensures OccursAt(s[1..], t, i - 1)
  {
    assert s[1..][i - 1..i - 1 + |t|] == s[i..i + |t|];
  }

  /** Where the scan stops, `t` occurs. */
  lemma {:induction false} ContainsWitness(s: string, t: string) returns (i: int)
    requires Contains(s, t)
    ensures OccursAt(s, t, i)
    decreases |s|
  {
    if IsPrefix(t, s) {
      i := 0;
    } else {
      var j := ContainsWitness(s[1..], t);
      OccursInTail(s, t, j);
      i := j + 1;
    }
  }

  /** The scan finds every occurrence. */
  lemma {:induction false} OccursContains(s: string, t: string, i: int)
    requires OccursAt(s, t, i)
    ensures Contains(s, t)
    decreases |s|
  {
    if i > 0 {
      OccursPastHead(s, t, i);
      OccursContains(s[1..], t, i - 1);
    }
  }

  /** The scanning definition agrees with the positional one. */
  lemma ContainsIff(s: string, t: string)
    ensures Contains(s, t) <==> exists i :: OccursAt(s, t, i)
  {
    if Contains(s, t) {
      var i := ContainsWitness(s, t);
    }
    forall i | OccursAt(s, t, i)
      ensures Contains(s, t)
    {
      OccursContains(s, t, i);
    }
  }

  /** A text that holds a character missing from `s` cannot occur in `s`. */
  lemma CharMissingRulesOut(s: string, t: string, k: nat)
    requires k < |t| && t[k] !in s
    ensures !Contains(s, t)
  {
    ContainsIff(s, t);
    forall i | 0 <= i && i + |t| <= |s|
      ensures !OccursAt(s, t, i)
    {
      assert s[i..i + |t|][k] == s[i + k];
    }
  }

  /** The characters at which JavaScript's `.` stops and before which a
      flagless `$` cannot match: LF, CR, LINE SEPARATOR, PARAGRAPH SEPARATOR. */
  predicate IsLineTerminator(c: char) {
    c == '\n' || c == '\r' || c == '\U{2028}' || c == '\U{2029}'
  }

  predicate HasLineTerminator(s: string) {
    exists i :: 0 <= i < |s| && IsLineTerminator(s[i])
  }

  /** Some label in `labels` is a substring of `s`; the alternation
      `(?:l1|l2|...)` built by `labels.join('|')`. */
  predicate ContainsAny(s: string, labels: seq<string>) {
    exists j :: 0 <= j < |labels| && Contains(s, labels[j])
  }
}
