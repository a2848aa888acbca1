/** The latitude and longitude fields of the GPS sentences of netsim_manager. */
module Gps {
  import opened Common

  datatype Fields = Fields(degrees: int, minutes: int, tenThousandths: int)

  /** The fields of an angle in degrees; its sign goes into the hemisphere. */
  function FieldsOf(angle: real): Fields {
    var x := Abs(angle);
    var degrees := x.Floor;
    var minutes := ((x - degrees as real) * 60.0).Floor;
    Fields(degrees, minutes, (((x - degrees as real) * 60.0 - minutes as real) * 10000.0).Floor)
  }

  function Decode(f: Fields, negative: bool): real {
    var x := f.degrees as real + (f.minutes as real + f.tenThousandths as real / 10000.0) / 60.0;
    if negative then -x else x
  }

  /** Over the reals, every angle gives proper minutes and ten-thousandths, and what a receiver
      decodes is the angle cut off towards zero by less than a ten-thousandth of a minute. */
  lemma {:induction false} DecodedAngleIsClose(angle: real)
    ensures var f := FieldsOf(angle);
      && f.degrees >= 0 && 0 <= f.minutes < 60 && 0 <= f.tenThousandths < 10000
      && 0.0 <= Abs(angle) - Decode(f, false) < 1.0 / 600000.0
      && Abs(angle - Decode(f, angle < 0.0)) < 1.0 / 600000.0
  {
    var x, f := Abs(angle), FieldsOf(angle);
    var inDegree := x - f.degrees as real;
    var inMinute := inDegree * 60.0 - f.minutes as real;
    var rest := inMinute * 10000.0 - f.tenThousandths as real;
    assert 0.0 <= inDegree < 1.0 && 0.0 <= inMinute < 1.0 && 0.0 <= rest < 1.0;
    assert x - Decode(f, false) == rest / 600000.0;
  }

  /** The number of ten-thousandths of a minute that the fields stand for. */
  function Units(f: Fields): int {
    f.degrees * 600000 + f.minutes * 10000 + f.tenThousandths
  }

  /** The fields count the whole ten-thousandths of minutes in the angle. */
  lemma {:induction false} UnitsOf(angle: real)
    ensures Units(FieldsOf(angle)) == (Abs(angle) * 600000.0).Floor
    ensures Decode(FieldsOf(angle), false) == Units(FieldsOf(angle)) as real / 600000.0
  {
    DecodedAngleIsClose(angle);
    var f := FieldsOf(angle);
    assert Decode(f, false) == Units(f) as real / 600000.0;
    assert 0.0 <= Abs(angle) * 600000.0 - Units(f) as real < 1.0;
  }

  lemma {:induction false} FloorOrder(x: real, y: real)
    requires x <= y
    ensures x.Floor <= y.Floor && (y - x >= 1.0 ==> x.Floor < y.Floor)
    ensures x.Floor as real / 600000.0 <= y.Floor as real / 600000.0
  {
  }

  /** Angles are told apart, and keep their order, down to that resolution. */
  lemma {:induction false} FieldsKeepOrder(a: real, b: real)
    requires 0.0 <= a <= b
    ensures Decode(FieldsOf(a), false) <= Decode(FieldsOf(b), false)
    ensures b - a >= 1.0 / 600000.0 ==> FieldsOf(a) != FieldsOf(b)
  {
    UnitsOf(a);
    UnitsOf(b);
    assert Abs(a) == a && Abs(b) == b;
    var x, y := a * 600000.0, b * 600000.0;
    FloorOrder(x, y);
    assert b - a >= 1.0 / 600000.0 ==> y - x >= 1.0;
  }

  // ---------------------------------------------------------------------------------------
  // The printed text
  // ---------------------------------------------------------------------------------------

  function Digits(n: nat): string {
    var last := ['0' + (n % 10) as char];
    if n < 10 then last else Digits(n / 10) + last
  }

  /** The width-padded decimal of a format item such as %04d. */
  function Pad(n: nat, width: nat): (t: string)
    ensures |t| >= width
  {
    var d := Digits(n);
    if |d| < width then seq(width - |d|, _ => '0') + d else d
  }

  function Print(f: Fields, width: nat): string
    requires f.degrees >= 0 && f.minutes >= 0 && f.tenThousandths >= 0
  {
    Pad(f.degrees, width) + Pad(f.minutes, 2) + "." + Pad(f.tenThousandths, 4)
  }

  predicate IsNumber(t: string) {
    forall i :: 0 <= i < |t| ==> '0' <= t[i] <= '9'
  }

  function Number(t: string): nat
    requires IsNumber(t)
  {
    if t == "" then 0 else Number(t[..|t| - 1]) * 10 + (t[|t| - 1] - '0') as nat
  }

  datatype Parsed = NoAngle | Angle(fields: Fields)

  /** Reads degrees, two digits of minutes, a point and the four digits of its fraction. */
  function Parse(t: string): Parsed {
    var n := |t|;
    if n < 7 || t[n - 5] != '.' || !IsNumber(t[..n - 5]) || !IsNumber(t[n - 4..]) then NoAngle
    else Angle(Fields(Number(t[..n - 7]), Number(t[n - 7..n - 5]), Number(t[n - 4..])))
  }

  function Power10(w: nat): nat {
    if w == 0 then 1 else 10 * Power10(w - 1)
  }

  lemma {:induction false} DigitsAreTheNumber(n: nat)
    ensures IsNumber(Digits(n)) && Number(Digits(n)) == n
  {
    var last := ['0' + (n % 10) as char];
    if n >= 10 {
      DigitsAreTheNumber(n / 10);
      var d := Digits(n / 10) + last;
      assert d[..|d| - 1] == Digits(n / 10);
    } else {
      assert last[..0] == "";
    }
  }

  lemma {:induction false} DigitsLength(n: nat, w: nat)
    requires w >= 1
    ensures |Digits(n)| <= w <==> n < Power10(w)
    decreases w
  {
    if w > 1 && n >= 10 {
      DigitsLength(n / 10, w - 1);
    } else if w > 1 {
      assert Power10(w) >= 10 by { PowerGrows(w - 1); }
    } else {
      assert Power10(1) == 10 * Power10(0);
    }
  }

  lemma {:induction false} PowerGrows(w: nat)
    ensures Power10(w) >= 1
  {
    if w > 0 {
      PowerGrows(w - 1);
    }
  }

  lemma {:induction false} LeadingZeros(k: nat, t: string)
    requires IsNumber(t)
    ensures IsNumber(seq(k, _ => '0') + t) && Number(seq(k, _ => '0') + t) == Number(t)
    decreases k + |t|
  {
    var z := seq(k, _ => '0');
    if t != "" {
      LeadingZeros(k, t[..|t| - 1]);
      assert (z + t)[..|z + t| - 1] == z + t[..|t| - 1];
    } else if k > 0 {
      LeadingZeros(k - 1, "");
      assert (z + t)[..|z + t| - 1] == seq(k - 1, _ => '0') + "";
    }
  }

  /** Padding keeps the number, and has the exact width if the number fits. */
  lemma {:induction false} PadIsTheNumber(n: nat, w: nat)
    requires w >= 1
    ensures IsNumber(Pad(n, w)) && Number(Pad(n, w)) == n && (|Pad(n, w)| == w <==> n < Power10(w))
  {
    DigitsAreTheNumber(n);
    DigitsLength(n, w);
    if |Digits(n)| < w {
      LeadingZeros(w - |Digits(n)|, Digits(n));
    }
  }

  lemma {:induction false} PowersOf10()
    ensures Power10(2) == 100 && Power10(3) == 1000 && Power10(4) == 10000
  {
    assert Power10(0) == 1 && Power10(1) == 10;
  }

  lemma {:induction false} ParseJoined(a: string, b: string, c: string)
    requires IsNumber(a) && IsNumber(b) && IsNumber(c) && |b| == 2 && |c| == 4
    ensures Parse(a + b + "." + c) == Angle(Fields(Number(a), Number(b), Number(c)))
  {
    assert IsNumber(a + b);
    JoinSplits(a, b, c);
  }

  lemma {:induction false} PrintParses(f: Fields, w: nat)
    requires w >= 1 && f.degrees >= 0 && 0 <= f.minutes < 60 && 0 <= f.tenThousandths < 10000
    ensures Parse(Print(f, w)) == Angle(f)
    ensures |Print(f, w)| == w + 7 <==> f.degrees < Power10(w)
  {
    hide Pad, Number, IsNumber, Parse, Power10;
    PowersOf10();
    PadIsTheNumber(f.degrees, w);
    PadIsTheNumber(f.minutes, 2);
    PadIsTheNumber(f.tenThousandths, 4);
    ParseJoined(Pad(f.degrees, w), Pad(f.minutes, 2), Pad(f.tenThousandths, 4));
  }

  lemma {:induction false} JoinSplits(a: string, b: string, c: string)
    requires |b| == 2 && |c| == 4
    ensures var t := a + b + "." + c;
      var n := |t|;
      n == |a| + 7 && t[n - 5] == '.' && t[..n - 7] == a && t[n - 7..n - 5] == b && t[..n - 5] == a + b
        && t[n - 4..] == c
  {
  }

  /** The printed latitude (width 2) or longitude (width 3) reads back as the same three integers,
      and has its fixed width for every angle of at most 90 or 180 degrees. */
  lemma {:induction false} PrintedAngleReadsBack(angle: real, width: nat)
    requires width == 2 || width == 3
    ensures var f := FieldsOf(angle);
      f.degrees >= 0 && f.minutes >= 0 && f.tenThousandths >= 0 && Parse(Print(f, width)) == Angle(f)
      && (|Print(f, width)| == width + 7 <==> Abs(angle) < if width == 2 then 100.0 else 1000.0)
  {
    DecodedAngleIsClose(angle);
    var f := FieldsOf(angle);
    PrintParses(f, width);
    PowersOf10();
  }

  /** In the text, the degrees are the first `width` digits, the minutes the next two, and the
      ten-thousandths the four after the point. */
  lemma {:induction false} PlacesInText(f: Fields, width: nat)
    requires width >= 1 && 0 <= f.degrees < Power10(width) && 0 <= f.minutes < 60 && 0 <= f.tenThousandths < 10000
    ensures var t := Print(f, width);
      && |t| == width + 7 && t[width + 2] == '.'
      && IsNumber(t[..width]) && Number(t[..width]) == f.degrees
      && IsNumber(t[width..width + 2]) && Number(t[width..width + 2]) == f.minutes
      && IsNumber(t[width + 3..]) && Number(t[width + 3..]) == f.tenThousandths
  {
    hide Pad, Number, IsNumber, Power10;
    PowersOf10();
    PadIsTheNumber(f.degrees, width);
    PadIsTheNumber(f.minutes, 2);
    PadIsTheNumber(f.tenThousandths, 4);
    JoinSplits(Pad(f.degrees, width), Pad(f.minutes, 2), Pad(f.tenThousandths, 4));
  }

  /** 7 degrees and 5.5 minutes. */
  lemma {:induction false} PrintedExample()
    ensures FieldsOf(7.0 + 5.5 / 60.0) == Fields(7, 5, 5000)
    ensures Print(Fields(7, 5, 5000), 2) == "0705.5000"
  {
    assert (7.0 + 5.5 / 60.0).Floor == 7 && (5.5 as real).Floor == 5 && (5000.0 as real).Floor == 5000;
    assert Digits(7) == "7" && Digits(5) == "5";
    assert Digits(50) == Digits(5) + "0" == "50";
    assert Digits(500) == Digits(50) + "0" == "500";
    assert Digits(5000) == Digits(500) + "0" == "5000";
    assert seq(1, _ => '0') == "0";
    assert Pad(7, 2) == "07" && Pad(5, 2) == "05" && Pad(5000, 4) == "5000";
    assert "07" + "05" + "." + "5000" == "0705.5000";
  }
}
