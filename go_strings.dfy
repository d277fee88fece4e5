/**
 * The parts of Go's `strings` package that the mount parser relies on:
 * `ToLower` (ASCII letters only), `SplitN(s, sep, 2)` and `Join`.
 */
module GoStrings {
  import opened Wrappers

  predicate IsUpper(c: char) {
    'A' <= c <= 'Z'
  }

  function LowerChar(c: char): char {
    if IsUpper(c) then (c as int + 32) as char else c
  }

  /** `strings.ToLower`, restricted to ASCII letters. */
  function Lower(s: string): (r: string)
    ensures |r| == |s|
    ensures forall i :: 0 <= i < |s| ==> r[i] == LowerChar(s[i])
    ensures forall i :: 0 <= i < |r| ==> !IsUpper(r[i])
  {
    seq(|s|, i requires 0 <= i < |s| => LowerChar(s[i]))
  }

  /** A string with no upper-case letter is its own lower-case form. */
  lemma LowerOfLower(s: string)
    requires forall i :: 0 <= i < |s| ==> !IsUpper(s[i])
    ensures Lower(s) == s
  {
  }

  /** Lower-casing twice is lower-casing once. */
  lemma LowerIdempotent(s: string)
    ensures Lower(Lower(s)) == Lower(s)
  {
    LowerOfLower(Lower(s));
  }

  /**
   * `strings.SplitN(s, string(sep), 2)`: the text before the first `sep`,
   * and the text after it when `s` contains `sep` at all.
   */
  function SplitAtFirst(s: string, sep: char): (parts: (string, Option<string>))
    ensures sep !in parts.0
    ensures parts.1.None? ==> parts.0 == s && sep !in s
    ensures parts.1.Some? ==> s == parts.0 + [sep] + parts.1.value
  {
    if s == [] then ([], None)
    else if s[0] == sep then ([], Some(s[1..]))
    else
      var rest := SplitAtFirst(s[1..], sep);
      assert s == [s[0]] + s[1..];
      ([s[0]] + rest.0, rest.1)
  }

  /** Splitting `key + sep + value` where `key` has no `sep` gives back `key` and all of `value`, separators included. */
  lemma {:induction false} SplitAtFirstJoined(key: string, sep: char, value: string)
    requires sep !in key
    ensures SplitAtFirst(key + [sep] + value, sep) == (key, Some(value))
  {
    var s := key + [sep] + value;
    if key != [] {
      assert s[0] == key[0] && s[0] != sep;
      assert s[1..] == key[1..] + [sep] + value;
      SplitAtFirstJoined(key[1..], sep, value);
      assert [key[0]] + key[1..] == key;
    }
  }

  /** A string without `sep` is not split at all. */
  lemma SplitAtFirstNone(s: string, sep: char)
    requires sep !in s
    ensures SplitAtFirst(s, sep) == (s, None)
  {
  }

  /** `strings.Join`: the parts in order with `sep` between neighbours. */
  function Join(parts: seq<string>, sep: string): string
  {
    if |parts| == 0 then ""
    else if |parts| == 1 then parts[0]
    else parts[0] + sep + Join(parts[1..], sep)
  }

  /** Joining one more part adds the separator and that part at the end. */
  lemma {:induction false} JoinAppend(parts: seq<string>, last: string, sep: string)
    requires parts != []
    ensures Join(parts + [last], sep) == Join(parts, sep) + sep + last
  {
    if |parts| > 1 {
      assert (parts + [last])[1..] == parts[1..] + [last];
      JoinAppend(parts[1..], last, sep);
    } else {
      assert parts + [last] == [parts[0], last];
    }
  }
}
