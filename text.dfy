/** Strings, optional values and the regular-expression capability shared by
    every component of the verification engine.

    The engine's classifiers are tables of regular expressions. The regex
    engine itself is not modelled: every operation that needs it receives a
    `Regex` value, an abstract oracle that answers the handful of questions
    the Python code asks of Python's `re` module. Everything done with the
    answers (first match, skipping, splitting, counting) is modelled exactly. */
module Text {

  datatype Option<+T> = None | Some(value: T)

  /** A pattern of the source's tables, with the flags it is searched with. */
  datatype Pattern = Pattern(src: string, ignoreCase: bool, multiline: bool)

  /** A case-sensitive pattern. */
  function Re(src: string): Pattern { Pattern(src, false, false) }

  /** A pattern searched with `re.IGNORECASE`. */
  function ReI(src: string): Pattern { Pattern(src, true, false) }

  /** A pattern searched with `re.MULTILINE`. */
  function ReM(src: string): Pattern { Pattern(src, false, true) }

  /** The questions the engine asks of `re`, as total functions of (pattern, text):
      - `search`: `re.search(p, t) is not None`;
      - `group`: `group(1)` of the first match, `None` when there is no match;
      - `numbers`: `int()` of each capturing group of the first match (`None`
        for a group that did not take part), `None` when there is no match;
      - `findAll`: `len(re.findall(p, t))`;
      - `findIter`: the captured groups of each successive match. */
  datatype Regex = Regex(
    search: (Pattern, string) -> bool,
    group: (Pattern, string) -> Option<string>,
    numbers: (Pattern, string) -> Option<seq<Option<nat>>>,
    findAll: (Pattern, string) -> nat,
    findIter: (Pattern, string) -> seq<seq<string>>
  )

  /** Group `i` of a numeric match, `None` when absent. */
  function Group(groups: seq<Option<nat>>, i: nat): Option<nat>
  {
    if i < |groups| then groups[i] else None
  }

  /** Python's `int(g or 0)` for an optional numeric group. */
  function OrZero(g: Option<nat>): nat
  {
    match g
    case Some(n) => n
    case None => 0
  }

  predicate StartsWith(s: string, prefix: string)
  {
    prefix <= s
  }

  predicate EndsWith(s: string, suffix: string)
  {
    |suffix| <= |s| && s[|s| - |suffix|..] == suffix
  }

  /** Python's `sub in s`. */
  predicate Contains(s: string, sub: string)
    decreases |s|
  {
    sub <= s || (|s| > 0 && Contains(s[1..], sub))
  }

  lemma {:induction false} ContainsAt(s: string, sub: string, i: nat)
    requires i + |sub| <= |s| && s[i..i + |sub|] == sub
    ensures Contains(s, sub)
    decreases i
  {
    if i > 0 {
      assert s[1..][i - 1..i - 1 + |sub|] == sub;
      ContainsAt(s[1..], sub, i - 1);
    }
  }

  /** ASCII case folding; Python's `str.lower` also folds non-ASCII letters. */
  function LowerChar(c: char): char
  {
    if 'A' <= c <= 'Z' then (c as int + 32) as char else c
  }

  function Lower(s: string): (r: string)
    ensures |r| == |s|
    ensures forall i :: 0 <= i < |s| ==> r[i] == LowerChar(s[i])
  {
    seq(|s|, i requires 0 <= i < |s| => LowerChar(s[i]))
  }

  /** The ASCII characters for which Python's `str.isspace` holds. */
  predicate IsSpace(c: char)
  {
    c == ' ' || c == '\t' || c == '\n' || c == '\r' || c == '\U{0B}' || c == '\U{0C}' ||
    ('\U{1C}' <= c <= '\U{1F}')
  }

  function StripLeft(s: string): (r: string)
    ensures |r| <= |s|
    ensures r == [] || !IsSpace(r[0])
  {
    if s != [] && IsSpace(s[0]) then StripLeft(s[1..]) else s
  }

  function StripRight(s: string): (r: string)
    ensures |r| <= |s|
    ensures r == [] || !IsSpace(r[|r| - 1])
  {
    if s != [] && IsSpace(s[|s| - 1]) then StripRight(s[..|s| - 1]) else s
  }

  /** Python's `str.strip()`. */
  function Strip(s: string): string
  {
    StripRight(StripLeft(s))
  }

  /** Python's `s.split(sep)` for a one-character separator: never empty,
      and joining the pieces with `sep` gives `s` back. */
  function Split(s: string, sep: char): (r: seq<string>)
    ensures |r| >= 1
    ensures forall k :: 0 <= k < |r| ==> sep !in r[k]
    decreases |s|
  {
    if |s| == 0 then [[]]
    else
      var rest := Split(s[1..], sep);
      if s[0] == sep then [[]] + rest
      else [[s[0]] + rest[0]] + rest[1..]
  }

  /** `sep.join(parts)`. */
  function Join(parts: seq<string>, sep: char): string
  {
    if |parts| == 0 then [] else if |parts| == 1 then parts[0]
    else parts[0] + [sep] + Join(parts[1..], sep)
  }

  lemma {:induction false} JoinSplit(s: string, sep: char)
    ensures Join(Split(s, sep), sep) == s
    decreases |s|
  {
    if |s| > 0 {
      JoinSplit(s[1..], sep);
      var rest := Split(s[1..], sep);
      if s[0] == sep {
        assert s == [sep] + s[1..];
      } else {
        if |rest| == 1 {
          assert s == [s[0]] + s[1..];
        } else {
          assert Join(rest, sep) == rest[0] + [sep] + Join(rest[1..], sep);
          assert s == [s[0]] + s[1..];
        }
      }
    }
  }

  /** `s.split(sep)[0]`: everything before the first `sep`. */
  function BeforeFirst(s: string, sep: char): (r: string)
    ensures r <= s && sep !in r
    ensures |r| < |s| ==> s[|r|] == sep
  {
    if |s| == 0 || s[0] == sep then [] else [s[0]] + BeforeFirst(s[1..], sep)
  }

  /** What follows the first `sep`, or `[]` when there is none. */
  function AfterFirst(s: string, sep: char): (r: string)
    ensures |BeforeFirst(s, sep)| < |s| ==> s == BeforeFirst(s, sep) + [sep] + r
  {
    if |s| == 0 then []
    else if s[0] == sep then s[1..]
    else AfterFirst(s[1..], sep)
  }

  lemma {:induction false} SplitHeads(s: string, sep: char)
    ensures Split(s, sep)[0] == BeforeFirst(s, sep)
    ensures sep in s ==> |Split(s, sep)| >= 2 && Split(s, sep)[1] == BeforeFirst(AfterFirst(s, sep), sep)
    decreases |s|
  {
    if |s| > 0 {
      SplitHeads(s[1..], sep);
      if s[0] == sep {
        SplitHeads(s[1..], sep);
      } else {
        assert sep in s ==> sep in s[1..];
      }
    }
  }

  function DigitChar(d: nat): char
    requires d < 10
  {
    ['0', '1', '2', '3', '4', '5', '6', '7', '8', '9'][d]
  }

  /** Python's `str(n)` for a natural number. */
  function NatToString(n: nat): (r: string)
    ensures |r| >= 1
    ensures forall i :: 0 <= i < |r| ==> '0' <= r[i] <= '9'
  {
    if n < 10 then [DigitChar(n)] else NatToString(n / 10) + [DigitChar(n % 10)]
  }

  /** Python's `str(i)` for an integer. */
  function IntToString(i: int): string
  {
    if i < 0 then "-" + NatToString(-i) else NatToString(i)
  }

  /** `group(1)` of the first pattern of `ps` that matches `text`. */
  function FirstGroup(re: Regex, ps: seq<Pattern>, text: string): Option<string>
  {
    if ps == [] then None
    else match re.group(ps[0], text)
      case Some(g) => Some(g)
      case None => FirstGroup(re, ps[1..], text)
  }

  lemma {:induction false} FirstGroupSpec(re: Regex, ps: seq<Pattern>, text: string)
    ensures FirstGroup(re, ps, text).None? <==> forall k :: 0 <= k < |ps| ==> re.group(ps[k], text).None?
    ensures FirstGroup(re, ps, text).Some? ==>
      exists k :: 0 <= k < |ps| && re.group(ps[k], text) == FirstGroup(re, ps, text) &&
        forall j :: 0 <= j < k ==> re.group(ps[j], text).None?
  {
    if ps != [] && re.group(ps[0], text).None? {
      FirstGroupSpec(re, ps[1..], text);
      if FirstGroup(re, ps, text).Some? {
        var k :| 0 <= k < |ps[1..]| && re.group(ps[1..][k], text) == FirstGroup(re, ps[1..], text) &&
          forall j :: 0 <= j < k ==> re.group(ps[1..][j], text).None?;
        assert re.group(ps[k + 1], text) == FirstGroup(re, ps, text);
        forall j | 0 <= j < k + 1
          ensures re.group(ps[j], text).None?
        {
          if j > 0 { assert ps[j] == ps[1..][j - 1]; }
        }
      } else {
        forall k | 0 <= k < |ps|
          ensures re.group(ps[k], text).None?
        {
          if k > 0 { assert ps[k] == ps[1..][k - 1]; }
        }
      }
    } else if ps != [] {
      assert 0 < |ps|;
    }
  }

  /** `int(group(1))` of the first pattern of `ps` that matches. */
  function FirstNumber(re: Regex, ps: seq<Pattern>, text: string): Option<nat>
  {
    if ps == [] then None
    else match re.numbers(ps[0], text)
      case Some(groups) => Group(groups, 0)
      case None => FirstNumber(re, ps[1..], text)
  }

  lemma {:induction false} FirstNumberSpec(re: Regex, ps: seq<Pattern>, text: string)
    ensures FirstNumber(re, ps, text).Some? ==>
      exists k :: 0 <= k < |ps| && re.numbers(ps[k], text).Some? &&
        Group(re.numbers(ps[k], text).value, 0) == FirstNumber(re, ps, text) &&
        forall j :: 0 <= j < k ==> re.numbers(ps[j], text).None?
    ensures (forall k :: 0 <= k < |ps| ==> re.numbers(ps[k], text).None?) ==> FirstNumber(re, ps, text).None?
  {
    if ps != [] && re.numbers(ps[0], text).None? {
      FirstNumberSpec(re, ps[1..], text);
      if FirstNumber(re, ps, text).Some? {
        var k :| 0 <= k < |ps[1..]| && re.numbers(ps[1..][k], text).Some? &&
          Group(re.numbers(ps[1..][k], text).value, 0) == FirstNumber(re, ps, text) &&
          forall j :: 0 <= j < k ==> re.numbers(ps[1..][j], text).None?;
        assert ps[1..][k] == ps[k + 1];
        forall j | 0 <= j < k + 1
          ensures re.numbers(ps[j], text).None?
        {
          if j > 0 { assert ps[j] == ps[1..][j - 1]; }
        }
      } else {
        assert forall k :: 0 <= k < |ps[1..]| ==> ps[1..][k] == ps[k + 1];
      }
    } else if ps != [] {
      assert 0 < |ps|;
    }
  }
}
