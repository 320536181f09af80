/**
 * The fragment of JavaScript regular expressions that the game-ID validators
 * use: a pattern anchored with `^` and `$` (no `m` flag), made of a sequence of
 * character classes, each repeated between `min` and `max` times. `FullMatch`
 * is what `RegExp.prototype.test` answers for such a pattern: some way of
 * splitting the whole input into consecutive runs, one per atom, fits.
 */
module Patterns {

  datatype CharClass =
    | AnyButLineTerminator  // `.` without the `s` flag
    | Exactly(c: char)      // a literal character such as `#`
    | AsciiAlnum            // `[a-zA-Z0-9]`
    | AsciiAlnumUnderscoreDash  // `[a-zA-Z0-9_-]`
    | AsciiDigit            // `\d` without the `u` flag

  predicate IsAsciiAlnum(c: char) {
    ('a' <= c <= 'z') || ('A' <= c <= 'Z') || ('0' <= c <= '9')
  }

  predicate InClass(c: char, k: CharClass) {
    match k
    case AnyButLineTerminator => c != '\n' && c != '\r' && c != '\U{2028}' && c != '\U{2029}'
    case Exactly(d) => c == d
    case AsciiAlnum => IsAsciiAlnum(c)
    case AsciiAlnumUnderscoreDash => IsAsciiAlnum(c) || c == '_' || c == '-'
    case AsciiDigit => '0' <= c <= '9'
  }

  predicate AllIn(s: string, k: CharClass) {
    forall i | 0 <= i < |s| :: InClass(s[i], k)
  }

  /** `cls{min,max}` */
  datatype Atom = Atom(cls: CharClass, min: nat, max: nat)

  /** `^a0 a1 ... an$` accepts `s`. */
  ghost predicate FullMatch(p: seq<Atom>, s: string)
    decreases |p|
  {
    if p == [] then s == []
    else exists k | p[0].min <= k <= p[0].max && k <= |s| ::
        AllIn(s[..k], p[0].cls) && FullMatch(p[1..], s[k..])
  }

  /** A pattern of one atom accepts exactly the strings of allowed length made of that class. */
  lemma MatchOneAtom(a: Atom, s: string)
    ensures FullMatch([a], s) <==> a.min <= |s| <= a.max && AllIn(s, a.cls)
  {
    if a.min <= |s| <= a.max && AllIn(s, a.cls) {
      assert s[..|s|] == s;
      assert FullMatch([a][1..], s[|s|..]);
    }
  }

  /** A first run of `k` characters of the first atom's class, followed by a match of the rest, is a match. */
  lemma MatchCons(p: seq<Atom>, s: string, k: nat)
    requires p != [] && p[0].min <= k <= p[0].max && k <= |s|
    requires AllIn(s[..k], p[0].cls) && FullMatch(p[1..], s[k..])
    ensures FullMatch(p, s)
  {
  }

  /** A match of a non-empty pattern starts with a run of the first atom, followed by a match of the rest. */
  lemma SplitMatch(p: seq<Atom>, s: string) returns (k: nat)
    requires p != [] && FullMatch(p, s)
    ensures p[0].min <= k <= p[0].max && k <= |s|
    ensures AllIn(s[..k], p[0].cls) && FullMatch(p[1..], s[k..])
  {
    k :| p[0].min <= k <= p[0].max && k <= |s| && AllIn(s[..k], p[0].cls) && FullMatch(p[1..], s[k..]);
  }
}
