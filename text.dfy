/** String helpers used when the toolbar composes its messages: the decimal
    numeral of a count, the count-aware noun phrase, joining with a separator, and
    the reading-back functions that show which count a message states. */
module Text {

  predicate IsDigit(c: char) {
    '0' <= c <= '9'
  }

  predicate AllDigits(s: string) {
    forall i :: 0 <= i < |s| ==> IsDigit(s[i])
  }

  function DigitChar(d: nat): (c: char)
    requires d < 10
    ensures IsDigit(c) && c as int - '0' as int == d
  {
    ('0' as int + d) as char
  }

  /** The numeral a template literal produces for a non-negative integer. */
  function Decimal(n: nat): (r: string)
    ensures r != [] && AllDigits(r)
  {
    if n < 10 then [DigitChar(n)] else Decimal(n / 10) + [DigitChar(n % 10)]
  }

  /** The value of a string of decimal digits. */
  function DigitsValue(s: string): nat
    requires AllDigits(s)
  {
    if s == [] then 0 else DigitsValue(s[..|s| - 1]) * 10 + (s[|s| - 1] as int - '0' as int)
  }

  /** The longest prefix of `s` made of digits. */
  function LeadingDigits(s: string): (r: string)
    ensures AllDigits(r) && |r| <= |s| && r == s[..|r|]
  {
    if s == [] || !IsDigit(s[0]) then [] else [s[0]] + LeadingDigits(s[1..])
  }

  /** The number a reader takes `s` to start with (0 when it starts with no digit). */
  function LeadingNumber(s: string): nat {
    DigitsValue(LeadingDigits(s))
  }

  /** Reading a numeral back gives the number it was made from. */
  lemma {:induction false} DecimalValue(n: nat)
    ensures DigitsValue(Decimal(n)) == n
  {
    if n >= 10 {
      var r := Decimal(n);
      assert r[..|r| - 1] == Decimal(n / 10);
      DecimalValue(n / 10);
    }
  }

  /** A digit string followed by a non-digit is exactly the leading digits. */
  lemma {:induction false} LeadingDigitsOf(d: string, rest: string)
    requires AllDigits(d)
    requires rest == [] || !IsDigit(rest[0])
    ensures LeadingDigits(d + rest) == d
  {
    if d == [] {
      assert d + rest == rest;
    } else {
      assert (d + rest)[1..] == d[1..] + rest;
      LeadingDigitsOf(d[1..], rest);
    }
  }

  /** A message made of `prefix`, the numeral of `n` and a tail that does not
      start with a digit states `n` right after the prefix. */
  lemma StatesCount(prefix: string, n: nat, rest: string)
    requires rest == [] || !IsDigit(rest[0])
    ensures |prefix| <= |prefix + Decimal(n) + rest|
    ensures LeadingNumber((prefix + Decimal(n) + rest)[|prefix|..]) == n
  {
    assert (prefix + Decimal(n) + rest)[|prefix|..] == Decimal(n) + rest;
    LeadingDigitsOf(Decimal(n), rest);
    DecimalValue(n);
  }

  /** "<prefix><n><rest>", the way a template literal interpolates a count. */
  function Counted(prefix: string, n: nat, rest: string): (r: string)
    requires rest == [] || !IsDigit(rest[0])
    ensures |prefix| <= |r| && LeadingNumber(r[|prefix|..]) == n
  {
    StatesCount(prefix, n, rest);
    prefix + Decimal(n) + rest
  }

  /** `_nouns`: the empty string for a count of zero or less, otherwise the count
      followed by the singular noun for one and the plural noun for more. */
  function Nouns(count: int, singular: string, plural: string): (r: string)
    ensures r == "" <==> count <= 0
    ensures count > 0 ==> LeadingNumber(r) == count
    ensures count == 1 ==> r == "1 " + singular
    ensures count > 1 ==> |plural| < |r| && r[|r| - |plural|..] == plural
    ensures count > 1 ==> r == Decimal(count) + " " + plural
  {
    if count <= 0 then ""
    else
      var noun := if count == 1 then singular else plural;
      LeadingDigitsOf(Decimal(count), " " + noun);
      DecimalValue(count);
      assert Decimal(count) + " " + noun == Decimal(count) + (" " + noun);
      assert Decimal(1) == "1";
      Decimal(count) + " " + noun
  }

  /** `a` and `b` with `sep` between them, the separator appearing only when both are non-empty. */
  function Conjoin(a: string, sep: string, b: string): (r: string)
    ensures a == "" ==> r == b
    ensures b == "" ==> r == a
    ensures a != "" && b != "" ==> r == a + sep + b
  {
    a + (if a != "" && b != "" then sep else "") + b
  }

  /** The phrase naming how many pipelines and pipeline versions an operation is
      about, "<n> pipeline(s)<and><m> pipeline version(s)", either part left out
      when its count is not positive. */
  function DeletionPhrase(t: string -> string, pipelines: int, versions: int, and: string): (r: string)
    ensures r == "" <==> pipelines <= 0 && versions <= 0
    ensures pipelines > 0 && versions > 0 ==>
      r == Nouns(pipelines, t("common:pipeline"), t("common:pipelines")) + and
           + Nouns(versions, t("common:pipelineVersion"), t("common:pipelineVersions"))
    ensures pipelines > 0 && versions <= 0 ==> r == Nouns(pipelines, t("common:pipeline"), t("common:pipelines"))
    ensures pipelines <= 0 ==> r == Nouns(versions, t("common:pipelineVersion"), t("common:pipelineVersions"))
  {
    Conjoin(Nouns(pipelines, t("common:pipeline"), t("common:pipelines")), and,
            Nouns(versions, t("common:pipelineVersion"), t("common:pipelineVersions")))
  }

  /** Text after a counted noun phrase does not change the count it states. */
  lemma NounsThenText(count: int, singular: string, plural: string, tail: string)
    requires count > 0
    ensures LeadingNumber(Nouns(count, singular, plural) + tail) == count
  {
    var noun := if count == 1 then singular else plural;
    assert Nouns(count, singular, plural) + tail == Decimal(count) + (" " + noun + tail);
    LeadingDigitsOf(Decimal(count), " " + noun + tail);
    DecimalValue(count);
  }

  /** The phrase, followed by any text, states the number of pipelines when there
      are any, and otherwise the number of pipeline versions. */
  lemma DeletionPhraseThenText(t: string -> string, pipelines: int, versions: int, and: string, tail: string)
    ensures pipelines > 0 ==> LeadingNumber(DeletionPhrase(t, pipelines, versions, and) + tail) == pipelines
    ensures pipelines <= 0 && versions > 0 ==> LeadingNumber(DeletionPhrase(t, pipelines, versions, and) + tail) == versions
  {
    if pipelines > 0 {
      PipelinesLead(t, pipelines, versions, and, tail);
    } else if versions > 0 {
      NounsThenText(versions, t("common:pipelineVersion"), t("common:pipelineVersions"), tail);
    }
  }

  lemma PipelinesLead(t: string -> string, pipelines: int, versions: int, and: string, tail: string)
    requires pipelines > 0
    ensures LeadingNumber(DeletionPhrase(t, pipelines, versions, and) + tail) == pipelines
  {
    var phrase := DeletionPhrase(t, pipelines, versions, and);
    var p := Nouns(pipelines, t("common:pipeline"), t("common:pipelines"));
    var rest := if versions > 0 then and + Nouns(versions, t("common:pipelineVersion"), t("common:pipelineVersions")) else "";
    if versions > 0 {
      Regroup(p, and, Nouns(versions, t("common:pipelineVersion"), t("common:pipelineVersions")), phrase);
    } else {
      assert phrase == p + rest;
    }
    RegroupTail(p, rest, tail, phrase);
    NounsThenText(pipelines, t("common:pipeline"), t("common:pipelines"), rest + tail);
  }

  /** Proof helper: regroups a three-part concatenation, proved apart from the
      phrase reasoning so that it stays cheap. */
  lemma Regroup(a: string, b: string, c: string, s: string)
    requires s == a + b + c
    ensures s == a + (b + c)
  {
  }

  /** Proof helper: appending a tail to a two-part concatenation. */
  lemma RegroupTail(a: string, b: string, tail: string, s: string)
    requires s == a + b
    ensures s + tail == a + (b + tail)
  {
  }

  /** `Array.prototype.join`: the parts with `sep` between consecutive ones. */
  function Join(parts: seq<string>, sep: string): (r: string)
    ensures |parts| == 0 ==> r == ""
    ensures |parts| == 1 ==> r == parts[0]
  {
    if |parts| == 0 then ""
    else if |parts| == 1 then parts[0]
    else parts[0] + sep + Join(parts[1..], sep)
  }

  /** `s` cut at every occurrence of `c` (the inverse of joining with `c`). */
  function Split(s: string, c: char): (r: seq<string>)
    ensures |r| >= 1
  {
    if s == [] then [""]
    else
      var rest := Split(s[1..], c);
      if s[0] == c then [""] + rest else [[s[0]] + rest[0]] + rest[1..]
  }

  predicate InfixAt(s: string, sub: string, i: int) {
    0 <= i && i + |sub| <= |s| && s[i..i + |sub|] == sub
  }

  /** `sub` occurs somewhere in `s`. */
  ghost predicate Contains(s: string, sub: string) {
    exists i :: InfixAt(s, sub, i)
  }

  lemma ContainsMiddle(a: string, b: string, c: string)
    ensures Contains(a + b + c, b)
  {
    assert (a + b + c)[|a|..|a| + |b|] == b;
    assert InfixAt(a + b + c, b, |a|);
  }

  /** Every part of a joined string occurs in it. */
  lemma {:induction false} JoinContains(parts: seq<string>, sep: string, k: nat)
    requires k < |parts|
    ensures Contains(Join(parts, sep), parts[k])
  {
    var r := Join(parts, sep);
    if |parts| == 1 {
      assert InfixAt(r, parts[0], 0);
    } else if k == 0 {
      ContainsMiddle("", parts[0], sep + Join(parts[1..], sep));
      assert "" + parts[0] + (sep + Join(parts[1..], sep)) == r;
    } else {
      JoinContains(parts[1..], sep, k - 1);
      var tail := Join(parts[1..], sep);
      var i :| InfixAt(tail, parts[k], i);
      var off := |parts[0]| + |sep|;
      assert r == (parts[0] + sep) + tail;
      assert r[off + i..off + i + |parts[k]|] == tail[i..i + |parts[k]|];
      assert InfixAt(r, parts[k], off + i);
    }
  }

  lemma JoinContainsAll(parts: seq<string>, sep: string)
    ensures forall k :: 0 <= k < |parts| ==> Contains(Join(parts, sep), parts[k])
  {
    forall k | 0 <= k < |parts| ensures Contains(Join(parts, sep), parts[k]) {
      JoinContains(parts, sep, k);
    }
  }

  /** Splitting a string that starts with a separator-free piece. */
  lemma {:induction false} SplitAfterPiece(x: string, c: char, tail: string)
    requires c !in x
    ensures Split(x + tail, c) == [x + Split(tail, c)[0]] + Split(tail, c)[1..]
  {
    if x != [] {
      assert (x + tail)[1..] == x[1..] + tail;
      SplitAfterPiece(x[1..], c, tail);
      assert [x[0]] + (x[1..] + Split(tail, c)[0]) == x + Split(tail, c)[0];
    } else {
      var parts := Split(tail, c);
      assert x + tail == tail && x + parts[0] == parts[0];
      assert [parts[0]] + parts[1..] == parts;
    }
  }

  /** Joining ids that contain no separator and splitting the result gives the ids back. */
  lemma {:induction false} SplitJoin(parts: seq<string>, c: char)
    requires |parts| >= 1
    requires forall k :: 0 <= k < |parts| ==> c !in parts[k]
    ensures Split(Join(parts, [c]), c) == parts
  {
    if |parts| == 1 {
      SplitAfterPiece(parts[0], c, "");
      assert parts[0] + "" == parts[0];
    } else {
      var tail := Join(parts[1..], [c]);
      SplitJoin(parts[1..], c);
      assert Join(parts, [c]) == parts[0] + ([c] + tail);
      SplitAfterPiece(parts[0], c, [c] + tail);
      assert ([c] + tail)[1..] == tail;
      assert Split([c] + tail, c) == [""] + parts[1..];
      assert parts[0] + "" == parts[0];
      assert [parts[0]] + parts[1..] == parts;
    }
  }

  function LowerChar(c: char): char {
    if 'A' <= c <= 'Z' then (c as int - 'A' as int + 'a' as int) as char else c
  }

  /** `toLowerCase` on ASCII letters. */
  function Lower(s: string): (r: string)
    ensures |r| == |s|
    ensures forall i :: 0 <= i < |s| ==> r[i] == LowerChar(s[i])
  {
    seq(|s|, i requires 0 <= i < |s| => LowerChar(s[i]))
  }
}
