// The Content-Range guard (internal/download/task_io.go): a partial response is accepted
// only if it declares the offset that was asked for (sections 14.4 and 15.3.7 of RFC 9110).
module ContentRange {
  import opened Chunks

  predicate IsDigit(ch: char)
  {
    '0' <= ch <= '9'
  }

  predicate AllDigits(s: string)
  {
    forall i :: 0 <= i < |s| ==> IsDigit(s[i])
  }

  // The value of a run of digits, most significant first.
  function Value(s: string): nat
    requires AllDigits(s)
  {
    if s == "" then 0
    else
      assert IsDigit(s[|s| - 1]);
      10 * Value(s[..|s| - 1]) + (s[|s| - 1] as int - '0' as int)
  }

  function Unsigned(s: string): string
  {
    if s != "" && s[0] == '+' then s[1..] else s
  }

  // A decimal integer as the standard library reads it: an optional plus sign and at least
  // one digit, within 64 bits. (A minus sign cannot reach it here.)
  function ParseInt(s: string): Option<int>
  {
    var t := Unsigned(s);
    if t == "" || !AllDigits(t) then None
    else if Value(t) > INT64_MAX then None
    else Some(Value(t))
  }

  // What comes before the first dash, or everything.
  function BeforeDash(s: string): string
  {
    if s == "" || s[0] == '-' then "" else [s[0]] + BeforeDash(s[1..])
  }

  function DeclaredStart(header: string): Option<int>
  {
    if "bytes " <= header then ParseInt(BeforeDash(header[6..])) else None
  }

  predicate StartsWith(header: string, want: int)
  {
    DeclaredStart(header) == Some(want)
  }

  // ----- headers as servers write them -----

  function Digit(d: nat): (ch: char)
    requires d < 10
    ensures IsDigit(ch) && ch as int - '0' as int == d
  {
    ('0' as int + d) as char
  }

  function Decimal(n: nat): (s: string)
    ensures s != "" && AllDigits(s)
  {
    if n < 10 then [Digit(n)] else Decimal(n / 10) + [Digit(n % 10)]
  }

  lemma {:induction false} DecimalValue(n: nat)
    ensures Value(Decimal(n)) == n
  {
    var s := Decimal(n);
    if n < 10 {
      assert s[..0] == "";
    } else {
      DecimalValue(n / 10);
      assert s[..|s| - 1] == Decimal(n / 10);
    }
  }

  lemma {:induction false} CutAtDash(a: string, b: string)
    requires forall i :: 0 <= i < |a| ==> a[i] != '-'
    ensures BeforeDash(a + "-" + b) == a
  {
    var s := a + "-" + b;
    if a == "" {
      assert s[0] == '-';
    } else {
      CutAtDash(a[1..], b);
      assert s[1..] == a[1..] + "-" + b && s[0] == a[0];
    }
  }

  function Header(start: nat, end: nat, total: nat): string
  {
    "bytes " + (Decimal(start) + "-" + (Decimal(end) + "/" + Decimal(total)))
  }

  // Of well-formed headers the guard accepts exactly those that start where asked; whatever
  // end and total they declare plays no part.
  lemma AcceptsExactly(start: nat, end: nat, total: nat, want: int)
    ensures StartsWith(Header(start, end, total), want) <==> start == want && start <= INT64_MAX
  {
    var d, rest := Decimal(start), Decimal(end) + "/" + Decimal(total);
    var h := Header(start, end, total);
    assert h[6..] == d + "-" + rest && "bytes " <= h;
    assert forall i :: 0 <= i < |d| ==> IsDigit(d[i]);
    CutAtDash(d, rest);
    DecimalValue(start);
    assert d[0] != '+';
  }

  // A plus sign before the digits, and anything at all after the dash, make no difference.
  lemma PlusAccepted(start: nat, tail: string, want: int)
    ensures StartsWith("bytes +" + (Decimal(start) + "-" + tail), want) <==> start == want && start <= INT64_MAX
  {
    var d := Decimal(start);
    var h := "bytes +" + (d + "-" + tail);
    assert h[6..] == ("+" + d) + "-" + tail && "bytes " <= h;
    assert forall i :: 0 <= i < |d| ==> IsDigit(d[i]);
    CutAtDash("+" + d, tail);
    DecimalValue(start);
    assert ("+" + d)[0] == '+' && ("+" + d)[1..] == d;
  }

  lemma {:induction false} NoDashBefore(s: string)
    ensures forall i :: 0 <= i < |BeforeDash(s)| ==> BeforeDash(s)[i] != '-'
    ensures BeforeDash(s) <= s
  {
    if s != "" && s[0] != '-' {
      NoDashBefore(s[1..]);
    }
  }

  // Any accepted header declares, in digits that only a plus sign may precede, the offset asked for.
  lemma AcceptedMeansDeclared(header: string, want: int)
    requires StartsWith(header, want)
    ensures 0 <= want <= INT64_MAX && "bytes " <= header
    ensures exists t: string :: t != "" && AllDigits(t) && Value(t) == want
                             && ("bytes " + t <= header || "bytes +" + t <= header)
  {
    var s := BeforeDash(header[6..]);
    NoDashBefore(header[6..]);
    var t := Unsigned(s);
    assert ParseInt(s) == Some(want);
    assert t != "" && AllDigits(t);
    assert Value(t) == want;
    assert header == "bytes " + header[6..];
    if s[0] == '+' {
      assert s == "+" + t && "bytes +" + t == "bytes " + s;
    }
    assert "bytes " + s <= header;
  }
}
