// What `parse` does with the outcome of the full match: the strict check for
// the separator over every captured value, then the filter on `_` names.
module Matching {
  import opened Wrappers
  import opened Text

  /**
   * One entry of the match's `groupdict()`, in group order: the group's name
   * and the text it captured, or None when the group took no part in the match.
   */
  datatype Capture = Capture(name: string, value: Option<string>)

  type Groups = seq<Capture>

  /** Why `parse` rejects a path; each is a distinct `raise` in the source. */
  datatype ParseError =
    | MissingLeadingSeparator(path: string)     // absolute parser, no leading separator
    | UnexpectedLeadingSeparator(path: string)  // relative parser, leading separator
    | NoMatch(path: string, pattern: string)
    | SeparatorInValue(groups: Groups)          // strict mode, the full groupdict is reported
    | NoneNotIterable                           // strict mode, `sep in None` raises a TypeError

  /** `sep in val` either raises (val is None) or holds. */
  predicate Offends(c: Capture, sep: string) {
    c.value.None? || Contains(c.value.value, sep)
  }

  /**
   * Where `any(sep in val for val in groups.values())` stops: at the first value
   * that is None or contains the separator.
   */
  function FirstOffence(g: Groups, sep: string): (r: Option<nat>)
    ensures r.None? <==> forall i :: 0 <= i < |g| ==> !Offends(g[i], sep)
    ensures r.Some? ==> r.value < |g| && Offends(g[r.value], sep)
    ensures r.Some? ==> forall i :: 0 <= i < r.value ==> !Offends(g[i], sep)
  {
    if g == [] then None
    else if Offends(g[0], sep) then Some(0)
    else match FirstOffence(g[1..], sep)
         case None => None
         case Some(k) => Some(k + 1)
  }

  /** `name.startswith("_")`, decided by the first character. */
  predicate Private(name: string) {
    name != [] && name[0] == '_'
  }

  lemma PrivateIsPrefix(name: string)
    ensures Private(name) <==> StartsWith(name, "_")
  {
    if name != [] {
      assert name[..1][0] == name[0];
    }
  }

  /** The dict comprehension that drops the `_` names, keeping the order. */
  function Public(g: Groups): (r: Groups)
    ensures |r| <= |g|
  {
    if g == [] then []
    else (if Private(g[0].name) then [] else [g[0]]) + Public(g[1..])
  }

  /** The strict check on the unfiltered groups, then the filter. */
  function CheckGroups(g: Groups, sep: string, strict: bool): (r: Result<Groups, ParseError>)
    ensures r.Ok? ==> r.value == Public(g)
    ensures r.Ok? && strict ==> forall i :: 0 <= i < |g| ==> g[i].value.Some? && !Contains(g[i].value.value, sep)
    ensures r.Err? ==> strict && (r.error.SeparatorInValue? || r.error.NoneNotIterable?)
    ensures r.Err? && r.error.SeparatorInValue? ==> r.error.groups == g
    ensures (!strict || forall i :: 0 <= i < |g| ==> !Offends(g[i], sep)) ==> r == Ok(Public(g))
    ensures r.Err? && r.error.NoneNotIterable? ==>
              exists i :: 0 <= i < |g| && g[i].value.None? && forall j :: 0 <= j < i ==> !Offends(g[j], sep)
    ensures r.Err? && r.error.SeparatorInValue? ==>
              exists i :: 0 <= i < |g| && g[i].value.Some? && Contains(g[i].value.value, sep)
                          && forall j :: 0 <= j < i ==> !Offends(g[j], sep)
  {
    if !strict then Ok(Public(g))
    else match FirstOffence(g, sep)
         case None => Ok(Public(g))
         case Some(i) =>
           assert forall j :: 0 <= j < i ==> !Offends(g[j], sep);
           if g[i].value.None? then Err(NoneNotIterable) else Err(SeparatorInValue(g))
  }

  /** The names of the groups, in order. */
  function NamesOf(g: Groups): (r: seq<string>)
    ensures |r| == |g|
    ensures forall i :: 0 <= i < |g| ==> r[i] == g[i].name
  {
    if g == [] then [] else [g[0].name] + NamesOf(g[1..])
  }

  /** The names that survive the filter, in order. */
  function PublicNames(names: seq<string>): seq<string> {
    if names == [] then []
    else (if Private(names[0]) then [] else [names[0]]) + PublicNames(names[1..])
  }

  /** The dict the groups make: when a name repeats, the later entry wins. */
  function ToMap(g: Groups): map<string, Option<string>> {
    if g == [] then map[]
    else ToMap(g[..|g| - 1])[g[|g| - 1].name := g[|g| - 1].value]
  }

  /** One step of the filter. */
  lemma PublicCons(c: Capture, g: Groups)
    ensures Public([c] + g) == (if Private(c.name) then [] else [c]) + Public(g)
  {
    assert ([c] + g)[1..] == g;
  }

  /** A capture survives the filter exactly when its name does not start with `_`. */
  lemma {:induction false} PublicMembers(g: Groups)
    ensures forall c :: c in Public(g) <==> c in g && !Private(c.name)
  {
    if g != [] {
      PublicMembers(g[1..]);
      assert g == [g[0]] + g[1..];
    }
  }

  /** A groupdict without `_` names passes the filter unchanged. */
  lemma {:induction false} PublicKeepsAll(g: Groups)
    requires forall i :: 0 <= i < |g| ==> !Private(g[i].name)
    ensures Public(g) == g
  {
    if g != [] {
      assert forall i :: 0 <= i < |g| - 1 ==> g[1..][i] == g[i + 1];
      PublicKeepsAll(g[1..]);
    }
  }

  /** A single `_` name between names without `_` drops out, and nothing else does. */
  lemma PublicDropsOne(a: Groups, c: Capture, b: Groups)
    requires forall i :: 0 <= i < |a| ==> !Private(a[i].name)
    requires Private(c.name)
    requires forall i :: 0 <= i < |b| ==> !Private(b[i].name)
    ensures Public(a + [c] + b) == a + b
  {
    var t := [c] + b;
    assert a + [c] + b == a + t;
    PublicKeepsAll(a);
    PublicKeepsAll(b);
    PublicDropsHead(c, b);
    PublicAppend(a, t);
  }

  lemma PublicDropsHead(c: Capture, b: Groups)
    requires Private(c.name)
    ensures Public([c] + b) == Public(b)
  {
    PublicCons(c, b);
  }

  /** The filter distributes over concatenation, so it keeps the source order. */
  lemma {:induction false} PublicAppend(a: Groups, b: Groups)
    ensures Public(a + b) == Public(a) + Public(b)
  {
    if a == [] {
      assert a + b == b;
    } else {
      assert (a + b)[1..] == a[1..] + b;
      PublicAppend(a[1..], b);
    }
  }

  /** Filtering twice is filtering once. */
  lemma {:induction false} PublicIdempotent(g: Groups)
    ensures Public(Public(g)) == Public(g)
  {
    if g != [] {
      PublicIdempotent(g[1..]);
      var head := if Private(g[0].name) then [] else [g[0]];
      PublicAppend(head, Public(g[1..]));
    }
  }

  /** The names of the result are the filtered names of the groups. */
  lemma {:induction false} NamesOfPublic(g: Groups)
    ensures NamesOf(Public(g)) == PublicNames(NamesOf(g))
  {
    if g != [] {
      NamesOfPublic(g[1..]);
      var head := if Private(g[0].name) then [] else [g[0]];
      NamesOfAppend(head, Public(g[1..]));
      assert NamesOf(g)[1..] == NamesOf(g[1..]);
    }
  }

  lemma {:induction false} NamesOfAppend(a: Groups, b: Groups)
    ensures NamesOf(a + b) == NamesOf(a) + NamesOf(b)
  {
    if a == [] {
      assert a + b == b;
    } else {
      assert (a + b)[1..] == a[1..] + b;
      NamesOfAppend(a[1..], b);
    }
  }

  /** The entries of a dict whose names do not start with `_`. */
  function Restricted(m: map<string, Option<string>>): map<string, Option<string>> {
    map k | k in m && !Private(k) :: m[k]
  }

  /**
   * As a dict, the result is the groupdict restricted to the names without a
   * leading `_`: every surviving name keeps its value.
   */
  lemma {:induction false} ToMapPublic(g: Groups)
    ensures ToMap(Public(g)) == Restricted(ToMap(g))
    decreases |g|
  {
    if g != [] {
      var init, last := g[..|g| - 1], g[|g| - 1];
      assert g == init + [last];
      ToMapPublic(init);
      PublicAppend(init, [last]);
      assert Public([last]) == (if Private(last.name) then [] else [last]) + Public([]);
      if !Private(last.name) {
        var p := Public(init) + [last];
        assert p[..|p| - 1] == Public(init);
      } else {
        assert Public(init) + [] == Public(init);
      }
      RestrictUpdate(ToMap(init), last.name, last.value);
    }
  }

  /** Restricting commutes with one assignment to a name without `_`; an assignment to a `_` name is dropped. */
  lemma RestrictUpdate(m: map<string, Option<string>>, k: string, v: Option<string>)
    ensures Restricted(m[k := v]) == if Private(k) then Restricted(m) else Restricted(m)[k := v]
  {
  }

  /** When strict mode is off, the check never fails: the filtered groups come back. */
  lemma LenientAccepts(g: Groups, sep: string)
    ensures CheckGroups(g, sep, false) == Ok(Public(g))
  {
  }

  /**
   * When every group took part, strict mode fails on the separator exactly when
   * some value, `_` names included, contains it.
   */
  lemma StrictLeaks(g: Groups, sep: string)
    requires forall i :: 0 <= i < |g| ==> g[i].value.Some?
    ensures CheckGroups(g, sep, true) == Err(SeparatorInValue(g))
            <==> exists i :: 0 <= i < |g| && Contains(g[i].value.value, sep)
    ensures CheckGroups(g, sep, true) == Ok(Public(g))
            <==> forall i :: 0 <= i < |g| ==> !Contains(g[i].value.value, sep)
  {
    var r := FirstOffence(g, sep);
    if r.Some? {
      assert Contains(g[r.value].value.value, sep);
    }
  }

  /** The first None value met before any value holding the separator decides the TypeError. */
  lemma StrictOrder(g: Groups, sep: string, i: nat)
    requires i < |g| && g[i].value.None?
    requires forall j :: 0 <= j < i ==> g[j].value.Some? && !Contains(g[j].value.value, sep)
    ensures CheckGroups(g, sep, true) == Err(NoneNotIterable)
  {
    assert Offends(g[i], sep);
  }

  /**
   * A value holding the separator, met before any None, decides the ValueError,
   * and the error reports the whole unfiltered groupdict.
   */
  lemma StrictSeparatorFirst(g: Groups, sep: string, i: nat)
    requires i < |g| && g[i].value.Some? && Contains(g[i].value.value, sep)
    requires forall j :: 0 <= j < i ==> g[j].value.Some? && !Contains(g[j].value.value, sep)
    ensures CheckGroups(g, sep, true) == Err(SeparatorInValue(g))
  {
    assert Offends(g[i], sep);
  }

  /** A strict parse that succeeds gives what a lenient one gives. */
  lemma StrictRefinesLenient(g: Groups, sep: string)
    ensures CheckGroups(g, sep, true).Ok? ==> CheckGroups(g, sep, true) == CheckGroups(g, sep, false)
  {
  }
}
