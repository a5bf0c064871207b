/** The keystroke masks: card number, expiry and CVV (`setupCreditCardMasks` in
    reservas.js) and the phone mask (`applyPhoneMask` in main.js). Each is the
    string→string transform its `input` listener applies to the field's value. */
module Masks {
  import opened Text
  import opened Rules

  // ----- card number -----

  /** `d.replace(/(\d{4})/g, '$1 ')` on a string of digits: a space after every complete group of four. */
  function SpaceAfterQuads(d: string): string
    decreases |d|
  {
    if |d| >= 4 then d[..4] + " " + SpaceAfterQuads(d[4..]) else d
  }

  /** The card mask: the first 16 digits, spaced by the regular expression, then trimmed. */
  function CardMask(s: string): string {
    Trim(SpaceAfterQuads(Take(Digits(s), 16)))
  }

  /** The intended layout: blocks of four digits, one space between blocks, the last block possibly shorter. */
  function Blocks(d: string): string
    decreases |d|
  {
    if |d| <= 4 then d else d[..4] + " " + Blocks(d[4..])
  }

  lemma {:induction false} QuadsAreBlocks(d: string)
    decreases |d|
    ensures SpaceAfterQuads(d) == Blocks(d) + (if |d| > 0 && |d| % 4 == 0 then " " else "")
  {
    if |d| > 4 {
      QuadsAreBlocks(d[4..]);
    } else if |d| == 4 {
      assert d[4..] == [];
      assert d[..4] == d;
    }
  }

  /** Position by position: a space exactly at every fifth place, the digits in their order elsewhere. */
  lemma {:induction false} BlocksAt(d: string, i: nat)
    requires i < |Blocks(d)|
    decreases |d|
    ensures d != []
    ensures |Blocks(d)| == |d| + (|d| - 1) / 4
    ensures i - i / 5 < |d|
    ensures Blocks(d)[i] == if i % 5 == 4 then ' ' else d[i - i / 5]
  {
    if |d| > 4 {
      if i >= 5 {
        BlocksAt(d[4..], i - 5);
      } else {
        BlocksAt(d[4..], 0);
      }
    }
  }

  lemma {:induction false} BlocksLast(d: string)
    requires d != []
    decreases |d|
    ensures Blocks(d) != [] && Blocks(d)[|Blocks(d)| - 1] == d[|d| - 1]
  {
    if |d| > 4 {
      BlocksLast(d[4..]);
    }
  }

  lemma {:induction false} DigitsOfBlocks(d: string)
    requires AllDigits(d)
    decreases |d|
    ensures Digits(Blocks(d)) == d
  {
    if |d| <= 4 {
      DigitsOfDigits(d);
    } else {
      DigitsOfBlocks(d[4..]);
      FilterAppend(IsDigit, d[..4] + " ", Blocks(d[4..]));
      FilterAppend(IsDigit, d[..4], " ");
      DigitsOfDigits(d[..4]);
      assert d == d[..4] + d[4..];
    }
  }

  /** Trimming removes exactly the trailing space the regular expression leaves after a full last group. */
  lemma CardMaskIsBlocks(s: string)
    ensures AllDigits(Take(Digits(s), 16))
    ensures CardMask(s) == Blocks(Take(Digits(s), 16))
  {
    var d := Take(Digits(s), 16);
    QuadsAreBlocks(d);
    var b := Blocks(d);
    if d != [] {
      BlocksAt(d, 0);
      BlocksLast(d);
      assert TrimStart(b) == b;
      assert TrimEnd(b) == b;
      if |d| % 4 == 0 {
        var t := b + " ";
        assert t[0] == b[0];
        assert TrimStart(t) == t;
        assert t[..|t| - 1] == b;
      }
    }
  }

  /** The card mask keeps exactly the first 16 digits of the input, in order. */
  lemma CardMaskDigits(s: string)
    ensures Digits(CardMask(s)) == Take(Digits(s), 16)
  {
    CardMaskIsBlocks(s);
    DigitsOfBlocks(Take(Digits(s), 16));
  }

  /** The card mask's output: `n` kept digits laid out with a space at every fifth position and nowhere else, no trailing space. */
  lemma CardMaskLayout(s: string)
    ensures var n := |Take(Digits(s), 16)|; var r := CardMask(s);
      && |r| == (if n == 0 then 0 else n + (n - 1) / 4)
      && (forall i | 0 <= i < |r| :: (r[i] == ' ') == (i % 5 == 4))
      && (forall i | 0 <= i < |r| :: i % 5 != 4 ==> IsDigit(r[i]))
      && (r == [] || r[|r| - 1] != ' ')
  {
    CardMaskIsBlocks(s);
    var d := Take(Digits(s), 16);
    var r := CardMask(s);
    forall i | 0 <= i < |r| ensures (r[i] == ' ') == (i % 5 == 4) && (i % 5 != 4 ==> IsDigit(r[i])) {
      BlocksAt(d, i);
    }
    if r != [] {
      BlocksAt(d, 0);
      BlocksLast(d);
    }
  }

  lemma CardMaskIdempotent(s: string)
    ensures CardMask(CardMask(s)) == CardMask(s)
  {
    CardMaskDigits(s);
    var d := Take(Digits(s), 16);
    assert Take(d, 16) == d;
  }

  // ----- expiry -----

  /** The expiry mask: the digits, with `/` after the first two and at most two more digits after it. */
  function ExpiryMask(s: string): string {
    var v := Digits(s);
    if |v| >= 2 then v[..2] + "/" + Take(v[2..], 2) else v
  }

  /** With two digits or more the output is `MM/` followed by digits three and four; otherwise the bare digits. */
  lemma ExpiryMaskDigits(s: string)
    ensures var v := Digits(s);
      Digits(ExpiryMask(s)) == if |v| >= 2 then Take(v, 4) else v
    ensures var v := Digits(s); |v| < 2 ==> ExpiryMask(s) == v
    ensures var v, r := Digits(s), ExpiryMask(s);
      |v| >= 2 ==> |r| == 1 + |Take(v, 4)| && r[2] == '/' && r[..2] + r[3..] == Take(v, 4)
  {
    var v := Digits(s);
    if |v| >= 2 {
      var t := Take(v[2..], 2);
      assert Take(v, 4) == v[..2] + t;
      FilterAppend(IsDigit, v[..2] + "/", t);
      FilterAppend(IsDigit, v[..2], "/");
      DigitsOfDigits(v[..2]);
      DigitsOfDigits(t);
      assert v[..2] + t == Take(v, 4);
    } else {
      DigitsOfDigits(v);
    }
  }

  lemma ExpiryMaskIdempotent(s: string)
    ensures ExpiryMask(ExpiryMask(s)) == ExpiryMask(s)
  {
    ExpiryMaskDigits(s);
    var v := Digits(s);
    if |v| >= 2 {
      var w := Take(v, 4);
      assert w[..2] == v[..2];
      assert Take(w[2..], 2) == Take(v[2..], 2);
    }
  }

  // ----- CVV -----

  /** The CVV mask: at most the first four digits. */
  function CvvMask(s: string): string {
    Take(Digits(s), 4)
  }

  lemma CvvMaskIdempotent(s: string)
    ensures AllDigits(CvvMask(s)) && |CvvMask(s)| <= 4
    ensures CvvMask(CvvMask(s)) == CvvMask(s)
  {
    DigitsOfDigits(CvvMask(s));
  }

  // ----- phone -----

  /** `($1) $2-$3` for the groups 3, 3, 4 at the start of a digit string. */
  function FormatTen(w: string): string
    requires |w| >= 10
  {
    "(" + w[..3] + ") " + w[3..6] + "-" + w[6..10]
  }

  /** `w.replace(/(\d{3})(\d{3})(\d{4})/, '($1) $2-$3')` on a string of digits. */
  function ReplaceTen(w: string): string {
    if |w| >= 10 then FormatTen(w) + w[10..] else w
  }

  /** `w.replace(/(\d{3})(\d{3})(\d{4})(\d+)/, '($1) $2-$3 x$4')` on a string of digits. */
  function ReplaceExtension(w: string): string {
    if |w| >= 11 then FormatTen(w) + " x" + w[10..] else w
  }

  /** The phone mask: the first 15 digits, formatted by the first pattern when there are at most ten and by the second otherwise. */
  function PhoneMask(s: string): string {
    var v := Digits(s);
    if |v| > 0 then
      var w := Take(v, 15);
      if |w| <= 10 then ReplaceTen(w) else ReplaceExtension(w)
    else v
  }

  /** The three layouts: bare digits below ten, `(XXX) XXX-XXXX` for exactly ten, and ` xREST` appended for eleven to fifteen. */
  lemma PhoneMaskLayout(s: string)
    ensures var w := Take(Digits(s), 15);
      PhoneMask(s) == if |w| < 10 then w
                      else if |w| == 10 then "(" + w[..3] + ") " + w[3..6] + "-" + w[6..10]
                      else "(" + w[..3] + ") " + w[3..6] + "-" + w[6..10] + " x" + w[10..]
  {
    var w := Take(Digits(s), 15);
    if |w| == 10 {
      assert w[10..] == [];
    }
  }

  lemma DigitsOfFormatTen(w: string)
    requires |w| >= 10 && AllDigits(w)
    ensures Digits(FormatTen(w)) == w[..10]
  {
    var a, b, c := w[..3], w[3..6], w[6..10];
    FilterAppend(IsDigit, "(" + a + ") " + b + "-", c);
    FilterAppend(IsDigit, "(" + a + ") " + b, "-");
    FilterAppend(IsDigit, "(" + a + ") ", b);
    FilterAppend(IsDigit, "(" + a, ") ");
    FilterAppend(IsDigit, "(", a);
    DigitsOfDigits(a);
    DigitsOfDigits(b);
    DigitsOfDigits(c);
    assert w[..10] == a + b + c;
  }

  /** The phone mask keeps exactly the first 15 digits of the input, in order. */
  lemma PhoneMaskDigits(s: string)
    ensures Digits(PhoneMask(s)) == Take(Digits(s), 15)
  {
    var v := Digits(s);
    var w := Take(v, 15);
    DigitsOfDigits(w);
    if |w| >= 10 {
      DigitsOfFormatTen(w);
      if |w| == 10 {
        assert w[10..] == [];
        assert w[..10] == w;
        assert PhoneMask(s) == FormatTen(w);
      } else {
        FilterAppend(IsDigit, FormatTen(w) + " x", w[10..]);
        FilterAppend(IsDigit, FormatTen(w), " x");
        DigitsOfDigits(w[10..]);
        assert w == w[..10] + w[10..];
      }
    }
  }

  lemma PhoneMaskIdempotent(s: string)
    ensures PhoneMask(PhoneMask(s)) == PhoneMask(s)
  {
    PhoneMaskDigits(s);
    var w := Take(Digits(s), 15);
    assert Take(w, 15) == w;
  }

  lemma NoSpaceInFormatTen(w: string)
    requires |w| >= 10 && AllDigits(w)
    ensures RemoveSpace(FormatTen(w)) == "(" + w[..3] + ")" + w[3..6] + "-" + w[6..10]
  {
    var a, b, c := w[..3], w[3..6], w[6..10];
    FilterKeepsAll(NotSpace, a);
    FilterKeepsAll(NotSpace, b);
    FilterKeepsAll(NotSpace, c);
    var x1 := "(" + a;
    FilterAppend(NotSpace, "(", a);
    assert RemoveSpace(x1) == "(" + a;
    var x2 := x1 + ") ";
    FilterAppend(NotSpace, x1, ") ");
    assert RemoveSpace(") ") == ")" by {
      assert ") "[1..] == " ";
      assert RemoveSpace(" ") == [];
    }
    var x3 := x2 + b;
    FilterAppend(NotSpace, x2, b);
    var x4 := x3 + "-";
    FilterAppend(NotSpace, x3, "-");
    var x5 := x4 + c;
    FilterAppend(NotSpace, x4, c);
    assert FormatTen(w) == x5;
  }

  /** A phone masked from exactly ten digits passes the tel rule of `validateForm`. */
  lemma MaskedTenDigitsPassTelRule(s: string)
    requires |Digits(s)| == 10
    ensures TelRule(PhoneMask(s))
  {
    var w := Take(Digits(s), 15);
    NoSpaceInFormatTen(w);
    assert w[10..] == [];
    assert PhoneMask(s) == FormatTen(w);
    var x := RemoveSpace(PhoneMask(s));
    assert x == "(" + w[..3] + ")" + w[3..6] + "-" + w[6..10];
    forall i | 0 <= i < |x| ensures IsTelChar(x[i]) {
      assert x[i] in "(" + w[..3] + ")" + w[3..6] + "-" + w[6..10];
    }
  }

  /** A phone masked from eleven digits or more carries the `x` of its extension, so the tel rule rejects it. */
  lemma MaskedExtensionFailsTelRule(s: string)
    requires |Digits(s)| > 10
    ensures !TelRule(PhoneMask(s))
  {
    var w := Take(Digits(s), 15);
    NoSpaceInFormatTen(w);
    var f := FormatTen(w);
    FilterAppend(NotSpace, f + " x", w[10..]);
    FilterAppend(NotSpace, f, " x");
    var x := RemoveSpace(PhoneMask(s));
    var k := |RemoveSpace(f)|;
    assert x[k] == 'x';
  }
}
