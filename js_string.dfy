/**
 * The few JavaScript string operations the room code relies on, on `string`
 * (a sequence of characters): `includes`, `endsWith`, `replace` with a string
 * pattern (first occurrence only), truthiness of an optional string, and the
 * relational operator `<` on strings (lexicographic by character).
 */
module JsString {
  import opened Optional

  /** `pat` occurs in `s` starting at index `i`. */
  predicate OccursAt(s: string, pat: string, i: nat)
  {
    i + |pat| <= |s| && s[i..i + |pat|] == pat
  }

  /** First index at or after `from` where `pat` occurs in `s` (`s.indexOf(pat, from)`). */
  function IndexFrom(s: string, pat: string, from: nat): (r: Option<nat>)
    decreases |s| - from
    ensures r.Some? ==> from <= r.value && OccursAt(s, pat, r.value)
    ensures r.Some? ==> forall j :: from <= j < r.value ==> !OccursAt(s, pat, j)
    ensures r.None? ==> forall j :: from <= j ==> !OccursAt(s, pat, j)
  {
    if from + |pat| > |s| then None
    else if OccursAt(s, pat, from) then Some(from)
    else IndexFrom(s, pat, from + 1)
  }

  /** `s.indexOf(pat)`, with `None` for -1. */
  function IndexOf(s: string, pat: string): Option<nat>
  {
    IndexFrom(s, pat, 0)
  }

  /** `s.includes(pat)`. */
  predicate Includes(s: string, pat: string)
  {
    IndexOf(s, pat).Some?
  }

  /** `s.endsWith(suffix)`. */
  predicate EndsWith(s: string, suffix: string)
  {
    |suffix| <= |s| && s[|s| - |suffix|..] == suffix
  }

  /** `s.replace(pat, rep)` with a string pattern: only the first occurrence is replaced. */
  function ReplaceFirst(s: string, pat: string, rep: string): string
  {
    match IndexOf(s, pat)
    case None => s
    case Some(i) => s[..i] + rep + s[i + |pat|..]
  }

  /** A JavaScript `string | null` in a boolean position: null and "" are falsy. */
  predicate Truthy(o: Option<string>)
  {
    o.Some? && o.value != ""
  }

  /** JavaScript `a < b` on strings: lexicographic by character, a proper prefix is smaller. */
  predicate Less(a: string, b: string)
  {
    if b == [] then false
    else if a == [] then true
    else if a[0] != b[0] then a[0] < b[0]
    else Less(a[1..], b[1..])
  }

  lemma {:induction false} LessIrreflexive(a: string)
    ensures !Less(a, a)
  {
    if a != [] {
      LessIrreflexive(a[1..]);
    }
  }

  lemma {:induction false} LessTransitive(a: string, b: string, c: string)
    requires Less(a, b) && Less(b, c)
    ensures Less(a, c)
  {
    if a != [] && a[0] == b[0] && b[0] == c[0] {
      LessTransitive(a[1..], b[1..], c[1..]);
    }
  }

  /** Two different strings are always ordered one way or the other. */
  lemma {:induction false} LessConnected(a: string, b: string)
    requires a != b
    ensures Less(a, b) || Less(b, a)
  {
    if a != [] && b != [] && a[0] == b[0] {
      assert a == [a[0]] + a[1..] && b == [b[0]] + b[1..];
      LessConnected(a[1..], b[1..]);
    }
  }

  lemma {:induction false} LessAsymmetric(a: string, b: string)
    requires Less(a, b)
    ensures !Less(b, a)
  {
    if a != [] && a[0] == b[0] {
      LessAsymmetric(a[1..], b[1..]);
    }
  }

  /** `Less` is a strict total order: exactly one of `a < b`, `a == b`, `b < a` holds. */
  lemma LessTrichotomy(a: string, b: string)
    ensures (if Less(a, b) then 1 else 0) + (if a == b then 1 else 0) + (if Less(b, a) then 1 else 0) == 1
  {
    if a == b {
      LessIrreflexive(a);
    } else {
      LessConnected(a, b);
      if Less(a, b) {
        LessAsymmetric(a, b);
      }
    }
  }

  /** A suffix like "_screen" or "_viewer": it starts with '_' and has no other '_'. */
  predicate MarkerShaped(pat: string)
  {
    |pat| > 0 && pat[0] == '_' && forall j :: 0 < j < |pat| ==> pat[j] != '_'
  }

  /** Appending a marker and then `replace(marker, '')` gives back the id when the id does not already contain the marker. */
  lemma StripMarker(id: string, pat: string)
    requires MarkerShaped(pat) && !Includes(id, pat)
    ensures EndsWith(id + pat, pat) && Includes(id + pat, pat)
    ensures ReplaceFirst(id + pat, pat, "") == id
  {
    var s := id + pat;
    assert s[|id|..] == pat;
    assert OccursAt(s, pat, |id|);
    forall j: nat | j < |id|
      ensures !OccursAt(s, pat, j)
    {
      if j + |pat| <= |id| {
        assert s[j..j + |pat|] == id[j..j + |pat|];
        assert !OccursAt(id, pat, j);
      } else {
        // an occurrence straddling the end of `id` would need a second '_' inside `pat`
        assert s[|id|] == '_' && pat[|id| - j] != '_';
      }
    }
    assert IndexOf(s, pat) == Some(|id|);
    assert s[..|id|] == id;
  }
}
