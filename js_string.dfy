/**
 * JavaScript's `String.prototype.indexOf` and `String.prototype.split` for a
 * non-empty separator: occurrences are found left to right without overlap.
 */
module JsString {
  import opened Wrappers

  /** `sep` occurs in `s` at index `i`. */
  predicate Occurs(s: string, sep: string, i: int)
  {
    0 <= i && i + |sep| <= |s| && s[i..i + |sep|] == sep
  }

  /** `i` is the first index at which `sep` occurs in `s`. */
  predicate FirstOccurrence(s: string, sep: string, i: int)
  {
    Occurs(s, sep, i) && forall k :: 0 <= k < i ==> !Occurs(s, sep, k)
  }

  /** An occurrence inside `s[1..]` is an occurrence in `s`, one place later. */
  lemma OccursInTail(s: string, sep: string, k: int)
    requires |s| > 0 && 1 <= k
    ensures Occurs(s, sep, k) <==> Occurs(s[1..], sep, k - 1)
  {
  }

  /** An occurrence at the start of `s[d..]` is an occurrence in `s` at `d`. */
  lemma OccursAfterDrop(s: string, sep: string, d: int)
    requires 0 <= d <= |s|
    ensures Occurs(s[d..], sep, 0) <==> Occurs(s, sep, d)
  {
    if d + |sep| <= |s| {
      assert forall t :: 0 <= t < |sep| ==> s[d..][0..|sep|][t] == s[d..d + |sep|][t];
      assert s[d..][0..|sep|] == s[d..d + |sep|];
    }
  }

  /** `s.indexOf(sep)`, with -1 read as `None`. */
  function IndexOf(s: string, sep: string): (r: Option<nat>)
    requires |sep| > 0
    ensures r.Some? ==> FirstOccurrence(s, sep, r.value)
    ensures r.None? ==> forall k :: !Occurs(s, sep, k)
    decreases |s|
  {
    if |s| < |sep| then None
    else if s[..|sep|] == sep then
      assert Occurs(s, sep, 0);
      Some(0)
    else
      var rest := IndexOf(s[1..], sep);
      assert forall k :: 1 <= k ==> (Occurs(s, sep, k) <==> Occurs(s[1..], sep, k - 1)) by {
        forall k | 1 <= k { OccursInTail(s, sep, k); }
      }
      assert !Occurs(s, sep, 0);
      match rest
      case None => None
      case Some(k) => Some(k + 1)
  }

  /** `s.split(sep)`. */
  function Split(s: string, sep: string): (parts: seq<string>)
    requires |sep| > 0
    ensures |parts| >= 1
    decreases |s|
  {
    match IndexOf(s, sep)
    case None => [s]
    case Some(i) => [s[..i]] + Split(s[i + |sep|..], sep)
  }

  /** `parts.join(sep)`. */
  function Join(parts: seq<string>, sep: string): string
    requires |parts| >= 1
  {
    if |parts| == 1 then parts[0] else parts[0] + sep + Join(parts[1..], sep)
  }

  /** Splitting loses nothing: joining the parts back gives the string. */
  lemma {:induction false} JoinSplit(s: string, sep: string)
    requires |sep| > 0
    ensures Join(Split(s, sep), sep) == s
    decreases |s|
  {
    match IndexOf(s, sep)
    case None =>
    case Some(i) =>
      var rest := s[i + |sep|..];
      var parts := Split(s, sep);
      assert parts == [s[..i]] + Split(rest, sep);
      assert parts[1..] == Split(rest, sep);
      JoinSplit(rest, sep);
      assert Join(parts, sep) == s[..i] + sep + rest;
      assert s[i..i + |sep|] == sep;
      assert s == s[..i] + s[i..i + |sep|] + rest;
  }

  /** No part of a split contains the separator. */
  lemma {:induction false} SplitPartsAreFree(s: string, sep: string)
    requires |sep| > 0
    ensures forall p, k :: p in Split(s, sep) ==> !Occurs(p, sep, k)
    decreases |s|
  {
    match IndexOf(s, sep)
    case None =>
    case Some(i) =>
      var rest := s[i + |sep|..];
      SplitPartsAreFree(rest, sep);
      forall k | Occurs(s[..i], sep, k) ensures false {
        assert s[..i][k..k + |sep|] == s[k..k + |sep|];
        assert Occurs(s, sep, k);
      }
  }

  /** The first part of a split is empty exactly when the string is empty or starts with the separator. */
  lemma FirstPartEmpty(t: string, sep: string)
    requires |sep| > 0
    ensures Split(t, sep)[0] == "" <==> |t| == 0 || Occurs(t, sep, 0)
  {
  }

  /**
   * The second part of a split is present and non-empty exactly when the
   * separator occurs, and the text after its first occurrence is non-empty
   * and does not start with the separator again.
   */
  lemma SecondPartNonEmpty(s: string, sep: string)
    requires |sep| > 0
    ensures (|Split(s, sep)| > 1 && Split(s, sep)[1] != "") <==>
            exists i :: FirstOccurrence(s, sep, i) && i + |sep| < |s| && !Occurs(s, sep, i + |sep|)
  {
    var n := |sep|;
    match IndexOf(s, sep)
    case None =>
    case Some(i) =>
      var rest := s[i + n..];
      assert Split(s, sep)[1] == Split(rest, sep)[0];
      FirstPartEmpty(rest, sep);
      OccursAfterDrop(s, sep, i + n);
      forall k | FirstOccurrence(s, sep, k) ensures k == i {
        assert !(k < i) && !(i < k);
      }
  }
}
