/**
 * The string handling `LogHistory.generate` applies to a log file name:
 * `name.replaceAll('.json', '').replaceAll('-overview', '').split('-')`, then
 * destructuring into `[day, month, year]` and the date text `${year}-${month}-${day}`.
 */
module LogNames {

  /** `s.includes(sub)`. */
  predicate Contains(s: string, sub: string)
    decreases |s|
  {
    |sub| <= |s| && (s[..|sub|] == sub || Contains(s[1..], sub))
  }

  /** `s.replaceAll(pat, '')`: occurrences removed left to right, without overlap. */
  function RemoveAll(s: string, pat: string): (r: string)
    requires |pat| > 0
    ensures |r| <= |s|
    decreases |s|
  {
    if |s| < |pat| then s
    else if s[..|pat|] == pat then RemoveAll(s[|pat|..], pat)
    else [s[0]] + RemoveAll(s[1..], pat)
  }

  /** Every occurrence of `pat[0]` in `x` is followed, inside `x`, by something other than `pat[1]`. */
  predicate NoStartIn(x: string, pat: string)
    requires |pat| > 1
  {
    forall i :: 0 <= i < |x| && x[i] == pat[0] ==> i + 1 < |x| && x[i + 1] != pat[1]
  }

  /** A string in which the pattern cannot start is left as it is. */
  lemma {:induction false} RemoveAllUntouched(x: string, pat: string)
    requires |pat| > 1 && NoStartIn(x, pat)
    ensures RemoveAll(x, pat) == x
    decreases |x|
  {
    if |x| >= |pat| {
      assert x[..|pat|] != pat by {
        if x[0] == pat[0] {
          assert x[..|pat|][1] == x[1];
        }
      }
      assert NoStartIn(x[1..], pat) by {
        forall i | 0 <= i < |x[1..]| && x[1..][i] == pat[0]
          ensures i + 1 < |x[1..]| && x[1..][i + 1] != pat[1]
        {
          assert x[i + 1] == pat[0];
        }
      }
      RemoveAllUntouched(x[1..], pat);
      assert [x[0]] + x[1..] == x;
    }
  }

  /** A trailing occurrence after such a string is the only one removed. */
  lemma {:induction false} RemoveAllSuffix(x: string, pat: string)
    requires |pat| > 1 && NoStartIn(x, pat)
    ensures RemoveAll(x + pat, pat) == x
    decreases |x|
  {
    var s := x + pat;
    if |x| == 0 {
      assert s == pat;
      assert s[|pat|..] == [];
    } else {
      assert s[..|pat|] != pat by {
        if x[0] == pat[0] {
          assert s[1] == x[1];
          assert s[..|pat|][1] == s[1];
        }
      }
      assert NoStartIn(x[1..], pat) by {
        forall i | 0 <= i < |x[1..]| && x[1..][i] == pat[0]
          ensures i + 1 < |x[1..]| && x[1..][i + 1] != pat[1]
        {
          assert x[i + 1] == pat[0];
        }
      }
      assert s[1..] == x[1..] + pat;
      RemoveAllSuffix(x[1..], pat);
      assert [x[0]] + x[1..] == x;
    }
  }

  function IndexOf(s: string, c: char): (i: nat)
    requires c in s
    ensures i < |s| && s[i] == c && c !in s[..i]
  {
    if s[0] == c then 0 else IndexOf(s[1..], c) + 1
  }

  /** `s.split(sep)` for a one-character separator: never empty, pieces free of `sep`. */
  function Split(s: string, sep: char): (parts: seq<string>)
    ensures |parts| >= 1
    ensures forall i :: 0 <= i < |parts| ==> sep !in parts[i]
    decreases |s|
  {
    if sep !in s then [s]
    else
      var i := IndexOf(s, sep);
      [s[..i]] + Split(s[i + 1..], sep)
  }

  /** `parts.join(sep)`. */
  function Join(parts: seq<string>, sep: char): string
    requires |parts| >= 1
  {
    if |parts| == 1 then parts[0] else parts[0] + [sep] + Join(parts[1..], sep)
  }

  /** Splitting loses nothing: joining the pieces gives the string back. */
  lemma {:induction false} SplitJoin(s: string, sep: char)
    ensures Join(Split(s, sep), sep) == s
    decreases |s|
  {
    if sep in s {
      var i := IndexOf(s, sep);
      SplitJoin(s[i + 1..], sep);
      assert Split(s, sep)[1..] == Split(s[i + 1..], sep);
      assert s[..i] + [sep] + s[i + 1..] == s;
    }
  }

  /** Joining pieces free of the separator and splitting again gives the pieces back. */
  lemma {:induction false} JoinSplit(parts: seq<string>, sep: char)
    requires |parts| >= 1 && forall i :: 0 <= i < |parts| ==> sep !in parts[i]
    ensures Split(Join(parts, sep), sep) == parts
    decreases |parts|
  {
    if |parts| > 1 {
      var s := Join(parts, sep);
      var p := parts[0];
      assert s == p + [sep] + Join(parts[1..], sep);
      assert s[|p|] == sep;
      assert s[..|p|] == p;
      assert IndexOf(s, sep) == |p|;
      assert s[|p| + 1..] == Join(parts[1..], sep);
      JoinSplit(parts[1..], sep);
    }
  }

  /** The `[day, month, year]` pieces of a file name. */
  function NameParts(name: string): seq<string> {
    Split(RemoveAll(RemoveAll(name, ".json"), "-overview"), '-')
  }

  /** A destructured element, `undefined` when the array is too short. */
  function Part(parts: seq<string>, i: nat): string {
    if i < |parts| then parts[i] else "undefined"
  }

  /** The text `new Date(...)` is built from: `${year}-${month}-${day}`. */
  function DateText(name: string): string {
    var parts := NameParts(name);
    Part(parts, 2) + "-" + Part(parts, 1) + "-" + Part(parts, 0)
  }

  predicate Digits(s: string) {
    |s| > 0 && forall i :: 0 <= i < |s| ==> '0' <= s[i] <= '9'
  }

  lemma DigitsFree(d: string, c: char)
    requires Digits(d) && !('0' <= c <= '9')
    ensures c !in d
  {
  }

  /** In `d-m-y` every hyphen is followed by a digit. */
  lemma DigitDateHyphens(d: string, m: string, y: string)
    requires Digits(d) && Digits(m) && Digits(y)
    ensures NoStartIn(d + "-" + m + "-" + y, "-overview")
  {
    var x := d + "-" + m + "-" + y;
    forall i | 0 <= i < |x| && x[i] == '-'
      ensures i + 1 < |x| && x[i + 1] != 'o'
    {
      if i == |d| {
        assert x[i + 1] == m[0];
      } else if i == |d| + 1 + |m| {
        assert x[i + 1] == y[0];
      }
    }
  }

  lemma DigitDateNoDot(d: string, m: string, y: string)
    requires Digits(d) && Digits(m) && Digits(y)
    ensures NoStartIn(d + "-" + m + "-" + y, ".json")
  {
    DigitsFree(d, '.');
    DigitsFree(m, '.');
    DigitsFree(y, '.');
    var x := d + "-" + m + "-" + y;
    assert x == d + ("-" + m + "-" + y);
    assert '.' !in x;
  }

  lemma DigitDateSplit(d: string, m: string, y: string)
    requires Digits(d) && Digits(m) && Digits(y)
    ensures Split(d + "-" + m + "-" + y, '-') == [d, m, y]
  {
    DigitsFree(d, '-');
    DigitsFree(m, '-');
    DigitsFree(y, '-');
    assert [d, m, y][1..] == [m, y];
    assert [m, y][1..] == [y];
    assert Join([y], '-') == y;
    assert Join([m, y], '-') == m + "-" + y;
    assert Join([d, m, y], '-') == d + "-" + m + "-" + y;
    JoinSplit([d, m, y], '-');
  }

  /** `DD-MM-YYYY.json` is read as `[DD, MM, YYYY]` and dated `YYYY-MM-DD`. */
  lemma DailyNameParses(d: string, m: string, y: string)
    requires Digits(d) && Digits(m) && Digits(y)
    ensures NameParts(d + "-" + m + "-" + y + ".json") == [d, m, y]
    ensures DateText(d + "-" + m + "-" + y + ".json") == y + "-" + m + "-" + d
  {
    var x := d + "-" + m + "-" + y;
    DigitDateHyphens(d, m, y);
    DigitDateNoDot(d, m, y);
    DigitDateSplit(d, m, y);
    RemoveAllSuffix(x, ".json");
    RemoveAllUntouched(x, "-overview");
  }

  /** `DD-MM-YYYY-overview.json` is read as `[DD, MM, YYYY]` too. */
  lemma OverviewNameParses(d: string, m: string, y: string)
    requires Digits(d) && Digits(m) && Digits(y)
    ensures NameParts(d + "-" + m + "-" + y + "-overview.json") == [d, m, y]
  {
    var x := d + "-" + m + "-" + y;
    OverviewStripJson(d, m, y);
    DigitDateHyphens(d, m, y);
    RemoveAllSuffix(x, "-overview");
    DigitDateSplit(d, m, y);
  }

  /** Removing `.json` from a rollup file name leaves `DD-MM-YYYY-overview`. */
  lemma OverviewStripJson(d: string, m: string, y: string)
    requires Digits(d) && Digits(m) && Digits(y)
    ensures RemoveAll(d + "-" + m + "-" + y + "-overview.json", ".json") == d + "-" + m + "-" + y + "-overview"
  {
    var x := d + "-" + m + "-" + y;
    DigitDateNoDot(d, m, y);
    var z := x + "-overview";
    assert x + "-overview.json" == z + ".json";
    assert NoStartIn(z, ".json") by {
      forall i | 0 <= i < |z|
        ensures z[i] != '.'
      {
        if i >= |x| {
          assert z[i] == "-overview"[i - |x|];
        }
      }
    }
    RemoveAllSuffix(z, ".json");
  }

  /** Daily file names pass the `.json` filter. */
  lemma {:induction false} DailyNameIsJson(x: string)
    ensures Contains(x + ".json", ".json")
    decreases |x|
  {
    if |x| > 0 {
      assert (x + ".json")[1..] == x[1..] + ".json";
      DailyNameIsJson(x[1..]);
    } else {
      assert (x + ".json")[..5] == ".json";
    }
  }
}
