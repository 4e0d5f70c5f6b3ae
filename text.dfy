/** String operations the pages rely on: rendering a whole number the way a
    JavaScript template literal does, and the two string rewrites used to turn a
    camelCase field name into words. */
module Text {

  predicate IsDigit(c: char)
  {
    '0' <= c <= '9'
  }

  predicate IsUpper(c: char)
  {
    'A' <= c <= 'Z'
  }

  function DigitChar(d: nat): (c: char)
    requires d < 10
    ensures IsDigit(c)
  {
    ('0' as int + d) as char
  }

  function DigitValue(c: char): (d: nat)
    requires IsDigit(c)
    ensures d < 10 && DigitChar(d) == c
    ensures forall e :: e < 10 && DigitChar(e) == c ==> e == d
  {
    (c as int - '0' as int) as nat
  }

  /** Decimal rendering of a whole number, as `${n}` produces it. */
  function NatToString(n: nat): (s: string)
    ensures |s| >= 1
    ensures forall i :: 0 <= i < |s| ==> IsDigit(s[i])
    ensures s[0] == '0' ==> s == "0"
    ensures n < 10 <==> |s| == 1
  {
    if n < 10 then [DigitChar(n)] else NatToString(n / 10) + [DigitChar(n % 10)]
  }

  /** Reads back a string of decimal digits. */
  function ParseNat(s: string): nat
    requires forall i :: 0 <= i < |s| ==> IsDigit(s[i])
  {
    if s == [] then 0 else ParseNat(s[..|s| - 1]) * 10 + DigitValue(s[|s| - 1])
  }

  /** Reading the rendering back gives the number: the rendering loses nothing. */
  lemma {:induction false} ParseNatToString(n: nat)
    ensures ParseNat(NatToString(n)) == n
  {
    var s := NatToString(n);
    if n >= 10 {
      var q, r := n / 10, n % 10;
      ParseNatToString(q);
      assert s == NatToString(q) + [DigitChar(r)];
      assert s[..|s| - 1] == NatToString(q);
      assert DigitValue(s[|s| - 1]) == r;
      assert q * 10 + r == n;
    }
  }

  /** Two numbers render alike only when they are equal. */
  lemma NatToStringInjective(m: nat, n: nat)
    ensures NatToString(m) == NatToString(n) <==> m == n
  {
    ParseNatToString(m);
    ParseNatToString(n);
  }

  /** `s.replace(/([A-Z])/g, ' $1')`: a space before every upper-case ASCII letter. */
  function SpaceBeforeUpper(s: string): string
  {
    if s == [] then []
    else (if IsUpper(s[0]) then [' ', s[0]] else [s[0]]) + SpaceBeforeUpper(s[1..])
  }

  function LowerChar(c: char): (r: char)
  {
    if IsUpper(c) then (c as int + 32) as char else c
  }

  /** `s.toLowerCase()` over ASCII letters. */
  function ToLower(s: string): (r: string)
    ensures |r| == |s|
    ensures forall i :: 0 <= i < |s| ==> r[i] == LowerChar(s[i])
  {
    if s == [] then [] else [LowerChar(s[0])] + ToLower(s[1..])
  }

  lemma {:induction false} ToLowerAppend(a: string, b: string)
    ensures ToLower(a + b) == ToLower(a) + ToLower(b)
  {
    var l, r := ToLower(a + b), ToLower(a) + ToLower(b);
    assert |l| == |r|;
    forall i | 0 <= i < |l| ensures l[i] == r[i] {
      if i < |a| {
        assert (a + b)[i] == a[i];
      } else {
        assert (a + b)[i] == b[i - |a|];
      }
    }
  }

  /** The camelCase-to-words label: `s.replace(/([A-Z])/g, ' $1').toLowerCase()`. */
  function Humanize(s: string): string
  {
    ToLower(SpaceBeforeUpper(s))
  }

  /** Reference definition of the same label, in one pass: every upper-case letter
      becomes a space and its lower-case form, every other character stays. */
  function WordsOf(s: string): string
  {
    if s == [] then []
    else (if IsUpper(s[0]) then [' ', LowerChar(s[0])] else [s[0]]) + WordsOf(s[1..])
  }

  /** The two-step rewrite and the one-pass definition agree on every string. */
  lemma {:induction false} HumanizeIsWordsOf(s: string)
    ensures Humanize(s) == WordsOf(s)
  {
    if s != [] {
      var head := if IsUpper(s[0]) then [' ', s[0]] else [s[0]];
      assert SpaceBeforeUpper(s) == head + SpaceBeforeUpper(s[1..]);
      ToLowerAppend(head, SpaceBeforeUpper(s[1..]));
      HumanizeIsWordsOf(s[1..]);
      assert ToLower(head) == (if IsUpper(s[0]) then [' ', LowerChar(s[0])] else [s[0]]);
    }
  }

  /** The label holds no upper-case letter, and is one character longer than the
      name for every upper-case letter the name holds. */
  lemma {:induction false} WordsOfShape(s: string)
    ensures forall i :: 0 <= i < |WordsOf(s)| ==> !IsUpper(WordsOf(s)[i])
    ensures |WordsOf(s)| == |s| + UpperCount(s)
  {
    if s != [] {
      WordsOfShape(s[1..]);
      var head := if IsUpper(s[0]) then [' ', LowerChar(s[0])] else [s[0]];
      assert WordsOf(s) == head + WordsOf(s[1..]);
    }
  }

  /** The rewrite works character by character, so it distributes over
      concatenation. */
  lemma {:induction false} WordsOfAppend(a: string, b: string)
    ensures WordsOf(a + b) == WordsOf(a) + WordsOf(b)
  {
    if a == [] {
      assert a + b == b;
    } else {
      assert (a + b)[0] == a[0] && (a + b)[1..] == a[1..] + b;
      WordsOfAppend(a[1..], b);
    }
  }

  /** A name without upper-case letters is its own label. */
  lemma {:induction false} WordsOfLowerIsIdentity(s: string)
    requires forall i :: 0 <= i < |s| ==> !IsUpper(s[i])
    ensures WordsOf(s) == s
  {
    if s != [] {
      WordsOfLowerIsIdentity(s[1..]);
    }
  }

  function UpperCount(s: string): nat
  {
    if s == [] then 0 else (if IsUpper(s[0]) then 1 else 0) + UpperCount(s[1..])
  }
}
