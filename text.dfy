/** The few operations on Python `str` values that the parser uses. */
module Text {

  /** `s.startswith(prefix)` */
  predicate StartsWith(s: string, prefix: string) {
    |prefix| <= |s| && s[..|prefix|] == prefix
  }

  /** `t in s`: `t` occurs as a contiguous substring of `s` (the empty string occurs in every string). */
  predicate Contains(s: string, t: string)
    decreases |s|
  {
    StartsWith(s, t) || (s != [] && Contains(s[1..], t))
  }

  /** `t` occurs in `s` at index `i`. */
  predicate OccursAt(s: string, t: string, i: nat) {
    i + |t| <= |s| && s[i..i + |t|] == t
  }

  /** `"".join(parts)` */
  function Concat(parts: seq<string>): string {
    if parts == [] then "" else parts[0] + Concat(parts[1..])
  }

  /** `sep.join(parts)` */
  function Join(sep: string, parts: seq<string>): string {
    if parts == [] then ""
    else if |parts| == 1 then parts[0]
    else parts[0] + sep + Join(sep, parts[1..])
  }

  /** Every part followed by `sep`: the shape `PART SEP [PART SEP ...]` of a grammar. */
  function Terminated(sep: string, parts: seq<string>): string {
    if parts == [] then "" else parts[0] + sep + Terminated(sep, parts[1..])
  }

  /** Substring search agrees with its positional definition, in both directions. */
  lemma {:induction false} ContainsIffOccurs(s: string, t: string)
    ensures Contains(s, t) <==> exists i: nat :: OccursAt(s, t, i)
    decreases |s|
  {
    if StartsWith(s, t) {
      assert OccursAt(s, t, 0);
    } else if s == [] {
    } else {
      ContainsIffOccurs(s[1..], t);
      if Contains(s[1..], t) {
        var i: nat :| OccursAt(s[1..], t, i);
        assert s[i + 1..i + 1 + |t|] == s[1..][i..i + |t|];
        assert OccursAt(s, t, i + 1);
      } else {
        forall i: nat | OccursAt(s, t, i) ensures false {
          if i > 0 {
            assert s[1..][i - 1..i - 1 + |t|] == s[i..i + |t|];
            assert OccursAt(s[1..], t, i - 1);
          }
        }
      }
    }
  }

  /** For a one-character separator, `sep in s` is membership of that character. */
  lemma ContainsChar(s: string, c: char)
    ensures Contains(s, [c]) <==> c in s
  {
    ContainsIffOccurs(s, [c]);
    if c in s {
      var i :| 0 <= i < |s| && s[i] == c;
      assert OccursAt(s, [c], i);
    }
    forall i: nat | OccursAt(s, [c], i) ensures s[i] == c {
      assert s[i..i + 1][0] == s[i];
    }
  }

  lemma {:induction false} TerminatedAppend(sep: string, a: seq<string>, b: seq<string>)
    ensures Terminated(sep, a + b) == Terminated(sep, a) + Terminated(sep, b)
  {
    if a == [] {
      assert a + b == b;
    } else {
      assert (a + b)[1..] == a[1..] + b;
      TerminatedAppend(sep, a[1..], b);
    }
  }

  /** `sep.join(parts) + (sep if parts else "")` is each part followed by `sep`. */
  lemma {:induction false} JoinThenSeparator(sep: string, parts: seq<string>)
    ensures Join(sep, parts) + (if parts != [] then sep else "") == Terminated(sep, parts)
  {
    if |parts| > 1 {
      JoinThenSeparator(sep, parts[1..]);
    }
  }
}
