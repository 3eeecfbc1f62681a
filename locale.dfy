/** Language detection: `navigator.language.split('-')[0]`. */
module Locale {

  /** The separator between the primary language subtag and the region subtag. */
  const Dash := '-'

  /** `s.split(sep)` for a one-character separator: the pieces between the
      occurrences of `sep`, in order, always at least one (possibly empty) piece. */
  function Split(s: string, sep: char): (parts: seq<string>)
    ensures |parts| >= 1
    ensures forall i :: 0 <= i < |parts| ==> sep !in parts[i]
    ensures parts[0] <= s
    ensures sep !in s ==> parts == [s]
    ensures sep in s ==> |parts[0]| < |s| && s[|parts[0]|] == sep
  {
    if s == [] then [[]]
    else
      var rest := Split(s[1..], sep);
      if s[0] == sep then [[]] + rest
      else
        assert s == [s[0]] + s[1..];
        [[s[0]] + rest[0]] + rest[1..]
  }

  /** `parts.join(sep)`: the pieces with `sep` between each two of them. */
  function Join(parts: seq<string>, sep: char): string
  {
    if parts == [] then []
    else if |parts| == 1 then parts[0]
    else parts[0] + [sep] + Join(parts[1..], sep)
  }

  /** Putting the pieces back together gives the original string. */
  lemma {:induction false} JoinSplit(s: string, sep: char)
    ensures Join(Split(s, sep), sep) == s
  {
    if s != [] {
      var rest := Split(s[1..], sep);
      JoinSplit(s[1..], sep);
      if s[0] == sep {
        assert Split(s, sep) == [[]] + rest;
        assert ([[]] + rest)[1..] == rest;
      } else {
        var parts := [[s[0]] + rest[0]] + rest[1..];
        assert Split(s, sep) == parts;
        if |rest| == 1 {
          assert parts == [[s[0]] + rest[0]];
        } else {
          assert parts[1..] == rest[1..];
          assert Join(parts, sep) == [s[0]] + (rest[0] + [sep] + Join(rest[1..], sep));
        }
        assert s == [s[0]] + s[1..];
      }
    }
  }

  /** A string without `sep` splits into itself alone. */
  lemma {:induction false} SplitNoSep(x: string, y: string, sep: char)
    requires sep !in x
    ensures Split(x + [sep] + y, sep) == [x] + Split(y, sep)
  {
    if x == [] {
      assert x + [sep] + y == [sep] + y;
      assert ([sep] + y)[1..] == y;
    } else {
      var s := x + [sep] + y;
      assert s[1..] == x[1..] + [sep] + y;
      SplitNoSep(x[1..], y, sep);
      assert [x[0]] + x[1..] == x;
    }
  }

  /** Splitting a join of separator-free pieces gives the pieces back. */
  lemma {:induction false} SplitJoin(parts: seq<string>, sep: char)
    requires |parts| >= 1
    requires forall i :: 0 <= i < |parts| ==> sep !in parts[i]
    ensures Split(Join(parts, sep), sep) == parts
  {
    if |parts| > 1 {
      SplitJoin(parts[1..], sep);
      SplitNoSep(parts[0], Join(parts[1..], sep), sep);
      assert [parts[0]] + parts[1..] == parts;
    }
  }

  /** The language stored by the component: the text of the browser's
      language tag before its first dash, kept verbatim (no fallback). */
  function DetectLang(tag: string): (lang: string)
    ensures lang <= tag
    ensures Dash !in lang
    ensures Dash !in tag ==> lang == tag
    ensures Dash in tag ==> |lang| < |tag| && tag[|lang|] == Dash
  {
    Split(tag, Dash)[0]
  }

  /** The text before the first dash is determined uniquely: any prefix without
      a dash that is followed by a dash, or is the whole dash-free tag, is it. */
  lemma DetectLangUnique(tag: string, k: nat)
    requires k <= |tag|
    requires Dash !in tag[..k]
    requires k == |tag| || tag[k] == Dash
    ensures DetectLang(tag) == tag[..k]
  {
  }
}
