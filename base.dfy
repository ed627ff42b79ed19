/** Value types and string helpers shared by the search-and-summarise pipeline. */
module Base {

  /** A value that may be absent: a missing dictionary key, a parameter left unset. */
  datatype Option<+T> = None | Some(value: T)

  /** A Python dictionary whose values are text, as the search API's JSON items are. */
  type Dict = map<string, string>

  /** `d.get(key, "")`: the value under `key`, or the empty string when it is missing. */
  function Get(d: Dict, key: string): (v: string)
    ensures key !in d ==> v == ""
    ensures key in d ==> v == d[key]
  {
    if key in d then d[key] else ""
  }

  /** Python truthiness of an optional text: present and non-empty. */
  predicate Truthy(s: Option<string>)
  {
    s.Some? && s.value != ""
  }

  /**
   * The three credentials read from the environment at start-up; a provider's
   * client exists exactly when its key is truthy.
   */
  datatype Credentials = Credentials(serpKey: Option<string>, groqKey: Option<string>, openaiKey: Option<string>)

  /** `s.startswith(p)` */
  predicate StartsWith(s: string, p: string)
  {
    |p| <= |s| && s[..|p|] == p
  }

  /** The decimal digit character for `d`. */
  function DigitChar(d: nat): char
    requires d < 10
  {
    ('0' as int + d) as char
  }

  /** The number a string of decimal digits denotes, most significant first. */
  function DigitsValue(s: string): int
  {
    if s == [] then 0 else DigitsValue(s[..|s| - 1]) * 10 + (s[|s| - 1] as int - '0' as int)
  }

  /** `str(n)` for a natural number: its decimal digits, most significant first. */
  function NatToString(n: nat): (s: string)
    ensures |s| >= 1
    ensures forall k :: 0 <= k < |s| ==> '0' <= s[k] <= '9'
    ensures n < 10 <==> |s| == 1
  {
    if n < 10 then [DigitChar(n)] else NatToString(n / 10) + [DigitChar(n % 10)]
  }

  /** `str(n)` reads back as `n`, so distinct numbers have distinct texts. */
  lemma {:induction false} NatToStringValue(n: nat)
    ensures DigitsValue(NatToString(n)) == n
  {
    var s := NatToString(n);
    if n >= 10 {
      NatToStringValue(n / 10);
      assert s[..|s| - 1] == NatToString(n / 10);
    } else {
      assert s[..|s| - 1] == [];
    }
  }

  function UpperChar(c: char): char
  {
    if 'a' <= c <= 'z' then (c as int - 'a' as int + 'A' as int) as char else c
  }

  /** `s.upper()` restricted to ASCII letters, which is all the pipeline upper-cases. */
  function Upper(s: string): string
  {
    seq(|s|, k requires 0 <= k < |s| => UpperChar(s[k]))
  }

  /** `h` occurs in `s` starting at index `i`. */
  predicate At(s: string, i: int, h: string)
  {
    0 <= i && i + |h| <= |s| && s[i..i + |h|] == h
  }

  /** Each of `hs` occurs in `s`, without overlapping, in the order given. */
  predicate ContainsInOrder(s: string, hs: seq<string>)
    decreases |hs|
  {
    hs == [] ||
    exists i :: 0 <= i <= |s| && At(s, i, hs[0]) && ContainsInOrder(s[i + |hs[0]|..], hs[1..])
  }

  /** Text in front of an ordered occurrence does not disturb it. */
  lemma ContainsInOrderAfter(a: string, b: string, hs: seq<string>)
    requires ContainsInOrder(b, hs)
    ensures ContainsInOrder(a + b, hs)
  {
    if hs != [] {
      var i :| 0 <= i <= |b| && At(b, i, hs[0]) && ContainsInOrder(b[i + |hs[0]|..], hs[1..]);
      var s := a + b;
      assert s[|a| + i..|a| + i + |hs[0]|] == b[i..i + |hs[0]|];
      assert At(s, |a| + i, hs[0]);
      assert s[|a| + i + |hs[0]|..] == b[i + |hs[0]|..];
    }
  }

  /** Putting `h` in front of an ordered occurrence of `hs` yields one of `[h] + hs`. */
  lemma ContainsInOrderCons(h: string, b: string, hs: seq<string>)
    requires ContainsInOrder(b, hs)
    ensures ContainsInOrder(h + b, [h] + hs)
  {
    var s := h + b;
    assert s[0..|h|] == h;
    assert At(s, 0, h);
    var hs' := [h] + hs;
    assert hs'[0] == h && hs'[1..] == hs;
    assert s[0 + |hs'[0]|..] == b;
    assert 0 <= 0 <= |s| && At(s, 0, hs'[0]) && ContainsInOrder(s[0 + |hs'[0]|..], hs'[1..]);
  }
}
