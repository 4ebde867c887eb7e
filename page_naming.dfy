/**
 * The string arithmetic of the page-preview pipeline: Java's
 * `lastIndexOf`, the `substring` that takes a path's extension, the
 * `"%d"` rendering of a non-negative int, and the preview file name
 * `"%s-%d.png"`.  The `"%d"` text and the preview name each come with a
 * partner that reads the text back; `LastIndexOf` and `ExtensionOf` are
 * pinned down by their own contracts.
 */
module PageNaming {
  import opened Wrappers

  predicate IsDigit(c: char) { '0' <= c <= '9' }

  predicate AllDigits(s: string) { forall i :: 0 <= i < |s| ==> IsDigit(s[i]) }

  function DigitValue(c: char): (d: nat)
    requires IsDigit(c)
    ensures d < 10
  {
    (c as int) - ('0' as int)
  }

  function DigitChar(d: nat): (c: char)
    requires d < 10
    ensures IsDigit(c) && DigitValue(c) == d
  {
    (('0' as int) + d) as char
  }

  /** `String.lastIndexOf(c)`: the position of the last `c` in `s`, or -1. */
  function LastIndexOf(s: string, c: char): (r: int)
    ensures -1 <= r < |s|
    ensures r == -1 <==> c !in s
    ensures 0 <= r ==> s[r] == c && c !in s[r + 1..]
    decreases |s|
  {
    if |s| == 0 then -1
    else if s[|s| - 1] == c then
      assert s[|s| - 1 + 1..] == [];
      |s| - 1
    else
      var front := s[..|s| - 1];
      var k := LastIndexOf(front, c);
      assert s == front + [s[|s| - 1]];
      assert 0 <= k ==> s[k + 1..] == front[k + 1..] + [s[|s| - 1]];
      k
  }

  /**
   * `name.substring(name.lastIndexOf('.'))`: the text from the last '.' to
   * the end, dot included.  With no '.' the index is -1 and `substring`
   * throws, which is `None` here.
   */
  function ExtensionOf(name: string): (r: Option<string>)
    ensures r.None? <==> '.' !in name
    ensures r.Some? ==> 1 <= |r.value| <= |name| && r.value[0] == '.' && '.' !in r.value[1..]
    ensures r.Some? ==> name == name[..|name| - |r.value|] + r.value
  {
    var k := LastIndexOf(name, '.');
    if k < 0 then None
    else
      assert name[k..][1..] == name[k + 1..];
      Some(name[k..])
  }

  /** The extension is the shortest suffix of the name that starts with a '.'. */
  lemma ExtensionIsShortestDotSuffix(stem: string, tail: string)
    requires |tail| >= 1 && tail[0] == '.'
    ensures ExtensionOf(stem + tail).Some?
    ensures |ExtensionOf(stem + tail).value| <= |tail|
  {
    var name := stem + tail;
    assert name[|stem|] == '.';
  }

  /** `String.format(Locale.US, "%d", n)` for a non-negative `n`. */
  function NatText(n: nat): (s: string)
    ensures |s| >= 1 && AllDigits(s)
    ensures |s| > 1 ==> s[0] != '0'
  {
    if n < 10 then [DigitChar(n)]
    else NatText(n / 10) + [DigitChar(n % 10)]
  }

  /** The value of a string of decimal digits, most significant first. */
  function DigitsValue(s: string): nat
    requires AllDigits(s)
  {
    if s == [] then 0
    else DigitsValue(s[..|s| - 1]) * 10 + DigitValue(s[|s| - 1])
  }

  /** Reads a non-negative decimal number back. */
  function ParseNat(s: string): Option<nat>
  {
    if |s| >= 1 && AllDigits(s) then Some(DigitsValue(s)) else None
  }

  lemma {:induction false} ParseNatText(n: nat)
    ensures ParseNat(NatText(n)) == Some(n)
  {
    var s := NatText(n);
    if n < 10 {
      assert s == [DigitChar(n)] && s[..|s| - 1] == [];
      assert DigitsValue(s) == DigitsValue([]) * 10 + DigitValue(DigitChar(n));
    } else {
      assert s[..|s| - 1] == NatText(n / 10);
      ParseNatText(n / 10);
    }
  }

  /** Different counts never render to the same text. */
  lemma NatTextInjective(a: nat, b: nat)
    requires NatText(a) == NatText(b)
    ensures a == b
  {
    ParseNatText(a);
    ParseNatText(b);
  }

  /** The temp-file name prefix `String.format(Locale.US, "%s-%d.png", prefix, page)`. */
  function PreviewName(prefix: string, page: nat): string
  {
    prefix + "-" + NatText(page) + ".png"
  }

  /**
   * Splits a preview name back into its prefix and page: the page is the
   * digits between the last '-' and the trailing ".png".
   */
  function SplitPreviewName(name: string): Option<(string, nat)>
  {
    if |name| < 4 || name[|name| - 4..] != ".png" then None
    else
      var body := name[..|name| - 4];
      var k := LastIndexOf(body, '-');
      if k < 0 then None
      else
        match ParseNat(body[k + 1..])
        case None => None
        case Some(page) => Some((body[..k], page))
  }

  lemma {:induction false} SplitPreviewNameRoundTrip(prefix: string, page: nat)
    ensures SplitPreviewName(PreviewName(prefix, page)) == Some((prefix, page))
  {
    var digits := NatText(page);
    var name := PreviewName(prefix, page);
    var body := prefix + "-" + digits;
    assert name == body + ".png";
    assert name[..|name| - 4] == body;
    assert name[|name| - 4..] == ".png";
    var k := LastIndexOf(body, '-');
    assert body[|prefix|] == '-';
    assert '-' !in digits by {
      forall i | 0 <= i < |digits| ensures digits[i] != '-' {
        assert IsDigit(digits[i]);
      }
    }
    assert body[k + 1..] == digits;
    assert body[..k] == prefix;
    ParseNatText(page);
  }

  /** The page number in a preview name determines the name, and vice versa. */
  lemma PreviewNameInjective(prefix: string, a: nat, b: nat)
    requires PreviewName(prefix, a) == PreviewName(prefix, b)
    ensures a == b
  {
    SplitPreviewNameRoundTrip(prefix, a);
    SplitPreviewNameRoundTrip(prefix, b);
  }
}
