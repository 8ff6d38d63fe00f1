/** The string operations the gateway relies on, over ASCII text. */
module Text {

  // What Python's str.strip() removes from ASCII text.
  predicate IsSpace(c: char) {
    9 <= c as int <= 13 || 28 <= c as int <= 32
  }

  function UpperChar(c: char): char {
    if 'a' <= c <= 'z' then (c as int - 32) as char else c
  }

  function LowerChar(c: char): char {
    if 'A' <= c <= 'Z' then (c as int + 32) as char else c
  }

  function Upper(s: string): (r: string)
    ensures |r| == |s|
  {
    seq(|s|, i requires 0 <= i < |s| => UpperChar(s[i]))
  }

  function Lower(s: string): (r: string)
    ensures |r| == |s|
  {
    seq(|s|, i requires 0 <= i < |s| => LowerChar(s[i]))
  }

  predicate IsStripped(s: string) {
    s == "" || (!IsSpace(s[0]) && !IsSpace(s[|s| - 1]))
  }

  function LStrip(s: string): (r: string)
    ensures r == "" || !IsSpace(r[0])
  {
    if s != "" && IsSpace(s[0]) then LStrip(s[1..]) else s
  }

  function RStrip(s: string): (r: string)
    ensures r == "" || !IsSpace(r[|r| - 1])
    ensures s != "" && !IsSpace(s[0]) ==> r != "" && r[0] == s[0]
  {
    if s != "" && IsSpace(s[|s| - 1]) then RStrip(s[..|s| - 1]) else s
  }

  function Strip(s: string): (r: string)
    ensures IsStripped(r)
    ensures IsStripped(s) ==> r == s
  {
    RStrip(LStrip(s))
  }

  // `str(x).strip().upper()`
  function Norm(s: string): (r: string)
    ensures IsStripped(r)
  {
    UpperStripped(Strip(s));
    Upper(Strip(s))
  }

  lemma UpperStripped(s: string)
    ensures IsStripped(Upper(s)) <==> IsStripped(s)
    ensures Upper(Upper(s)) == Upper(s)
  {
    assert forall c: char :: IsSpace(UpperChar(c)) <==> IsSpace(c);
    assert forall c: char :: UpperChar(UpperChar(c)) == UpperChar(c);
  }

  lemma NormIdempotent(s: string)
    ensures Norm(Norm(s)) == Norm(s)
  {
    UpperStripped(Strip(s));
  }

  predicate Contains(text: string, sub: string) {
    sub <= text || (text != "" && Contains(text[1..], sub))
  }

  // Exactly: sub occurs somewhere in text.
  lemma {:induction false} ContainsIff(text: string, sub: string)
    ensures Contains(text, sub) <==> exists i | 0 <= i <= |text| :: sub <= text[i..]
  {
    if sub <= text {
      assert text[0..] == text;
    } else if text != "" {
      ContainsIff(text[1..], sub);
      assert forall i | 0 <= i <= |text| - 1 :: text[1..][i..] == text[i + 1..];
      if i :| 0 <= i <= |text| && sub <= text[i..] {
        assert i > 0 by { assert text[0..] == text; }
        assert sub <= text[1..][i - 1..];
      }
    }
  }

  lemma {:induction false} ContainsInLonger(text: string, sub: string, post: string)
    requires Contains(text, sub)
    ensures Contains(text + post, sub)
  {
    if !(sub <= text) {
      ContainsInLonger(text[1..], sub, post);
      assert (text + post)[1..] == text[1..] + post;
    }
  }

  predicate AllDigits(s: string) {
    forall i | 0 <= i < |s| :: '0' <= s[i] <= '9'
  }

  function Decimal(n: nat): string {
    if n < 10 then [('0' as int + n) as char] else Decimal(n / 10) + [('0' as int + n % 10) as char]
  }

  function Integer(n: int): string {
    if n < 0 then "-" + Decimal(-n) else Decimal(n)
  }

  // str.split(sep) for a one-character separator: never empty.
  function Split(s: string, sep: char): (r: seq<string>)
    ensures |r| > 0
  {
    if s == "" then [""]
    else
      var rest := Split(s[1..], sep);
      if s[0] == sep then [""] + rest else [[s[0]] + rest[0]] + rest[1..]
  }

  lemma {:induction false} SplitAtom(p: string, sep: char)
    requires sep !in p
    ensures Split(p, sep) == [p]
  {
    if p != "" {
      SplitAtom(p[1..], sep);
      assert [p[0]] + p[1..] == p;
    }
  }

  lemma {:induction false} SplitCons(p: string, sep: char, rest: string)
    requires sep !in p
    ensures Split(p + [sep] + rest, sep) == [p] + Split(rest, sep)
  {
    if p == "" {
      assert ("" + [sep] + rest)[1..] == rest;
    } else {
      SplitCons(p[1..], sep, rest);
      assert (p + [sep] + rest)[1..] == p[1..] + [sep] + rest;
      assert [p[0]] + p[1..] == p;
    }
  }

  lemma {:induction false} SplitHasNoSeparator(s: string, sep: char, i: nat)
    requires i < |Split(s, sep)|
    ensures sep !in Split(s, sep)[i]
  {
    if s != "" {
      var rest := Split(s[1..], sep);
      if s[0] == sep {
        if i > 0 { SplitHasNoSeparator(s[1..], sep, i - 1); }
      } else {
        SplitHasNoSeparator(s[1..], sep, i);
      }
    }
  }

  predicate AllSpace(s: string) {
    forall i | 0 <= i < |s| :: IsSpace(s[i])
  }

  lemma {:induction false} LStripSplits(s: string) returns (pre: string)
    ensures s == pre + LStrip(s) && AllSpace(pre)
  {
    pre := "";
    if s != "" && IsSpace(s[0]) {
      var rest := LStripSplits(s[1..]);
      pre := [s[0]] + rest;
      assert s == [s[0]] + s[1..];
    }
  }

  lemma {:induction false} RStripSplits(s: string) returns (post: string)
    ensures s == RStrip(s) + post && AllSpace(post)
  {
    post := "";
    if s != "" && IsSpace(s[|s| - 1]) {
      var rest := RStripSplits(s[..|s| - 1]);
      post := rest + [s[|s| - 1]];
      assert s == s[..|s| - 1] + [s[|s| - 1]];
    }
  }

  // Stripping removes spaces at the two ends and nothing else.
  lemma StripRemovesOnlySpace(s: string) returns (pre: string, post: string)
    ensures s == pre + Strip(s) + post && AllSpace(pre) && AllSpace(post) && IsStripped(Strip(s))
  {
    pre := LStripSplits(s);
    post := RStripSplits(LStrip(s));
  }

  function Join(parts: seq<string>, sep: char): string
    requires parts != []
  {
    if |parts| == 1 then parts[0] else parts[0] + [sep] + Join(parts[1..], sep)
  }

  // Splitting loses nothing.
  lemma {:induction false} JoinOfSplit(s: string, sep: char)
    ensures Join(Split(s, sep), sep) == s
  {
    if s != "" {
      var rest := Split(s[1..], sep);
      JoinOfSplit(s[1..], sep);
      if s[0] == sep {
        JoinCons("", rest, sep);
        assert [""] + rest == Split(s, sep);
      } else {
        JoinGrows(s[0], rest, sep);
      }
      assert s == [s[0]] + s[1..];
    }
  }

  lemma JoinCons(p: string, rest: seq<string>, sep: char)
    requires rest != []
    ensures Join([p] + rest, sep) == p + [sep] + Join(rest, sep)
  {
    assert ([p] + rest)[1..] == rest;
  }

  lemma JoinGrows(c: char, rest: seq<string>, sep: char)
    requires rest != []
    ensures Join([[c] + rest[0]] + rest[1..], sep) == [c] + Join(rest, sep)
  {
    var grown := [[c] + rest[0]] + rest[1..];
    assert grown[1..] == rest[1..];
    if |rest| > 1 {
      var more := Join(rest[1..], sep);
      assert [c] + rest[0] + [sep] + more == [c] + (rest[0] + [sep] + more);
    }
  }

  lemma {:induction false} SplitOfJoin(parts: seq<string>, sep: char)
    requires parts != [] && forall i | 0 <= i < |parts| :: sep !in parts[i]
    ensures Split(Join(parts, sep), sep) == parts
  {
    if |parts| == 1 {
      SplitAtom(parts[0], sep);
      assert [parts[0]] == parts;
    } else {
      SplitCons(parts[0], sep, Join(parts[1..], sep));
      SplitOfJoin(parts[1..], sep);
      assert [parts[0]] + parts[1..] == parts;
    }
  }

  lemma {:induction false} JoinIsStripped(parts: seq<string>, sep: char)
    requires parts != [] && parts[0] != "" && parts[|parts| - 1] != ""
    requires !IsSpace(parts[0][0]) && !IsSpace(parts[|parts| - 1][|parts[|parts| - 1]| - 1])
    ensures Join(parts, sep) != "" && IsStripped(Join(parts, sep))
  {
    JoinEnds(parts, sep);
  }

  lemma {:induction false} JoinEnds(parts: seq<string>, sep: char)
    requires parts != [] && parts[|parts| - 1] != ""
    ensures var j, last := Join(parts, sep), parts[|parts| - 1];
            j != "" && j[|j| - 1] == last[|last| - 1] && (parts[0] != "" ==> j[0] == parts[0][0])
  {
    if |parts| > 1 { JoinEnds(parts[1..], sep); }
  }
}
