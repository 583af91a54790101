/**
  White space trimming as the daemon performs it. Go's strings.TrimSpace strips
  every Unicode white space character; SQL's TRIM strips the space character only.
 */
module Text {

  predicate IsSpace(c: char) {
    || '\t' <= c <= '\r'
    || c == ' '
    || c == '\U{0085}'
    || c == '\U{00A0}'
    || c == '\U{1680}'
    || '\U{2000}' <= c <= '\U{200A}'
    || c == '\U{2028}'
    || c == '\U{2029}'
    || c == '\U{202F}'
    || c == '\U{205F}'
    || c == '\U{3000}'
  }

  predicate IsBlank(s: string) {
    forall i :: 0 <= i < |s| ==> IsSpace(s[i])
  }

  function TrimLeft(s: string, strip: char -> bool): string {
    if s != "" && strip(s[0]) then TrimLeft(s[1..], strip) else s
  }

  function TrimRight(s: string, strip: char -> bool): string {
    if s != "" && strip(s[|s| - 1]) then TrimRight(s[..|s| - 1], strip) else s
  }

  function TrimSpace(s: string): string {
    TrimRight(TrimLeft(s, IsSpace), IsSpace)
  }

  function SqlTrim(s: string): string {
    TrimRight(TrimLeft(s, c => c == ' '), c => c == ' ')
  }

  /** TrimLeft drops the longest prefix of stripped characters, TrimRight the longest suffix. */
  lemma {:induction false} TrimLeftShape(s: string, strip: char -> bool) returns (k: nat)
    ensures k <= |s| && TrimLeft(s, strip) == s[k..] && forall i :: 0 <= i < k ==> strip(s[i])
    ensures k < |s| ==> !strip(s[k])
  {
    k := 0;
    if s != "" && strip(s[0]) {
      k := TrimLeftShape(s[1..], strip);
      assert s[1..][k..] == s[k + 1..];
      assert forall i :: 0 < i < k + 1 ==> s[i] == s[1..][i - 1];
      assert k < |s| - 1 ==> s[k + 1] == s[1..][k];
      k := k + 1;
    }
  }

  lemma {:induction false} TrimRightShape(s: string, strip: char -> bool) returns (n: nat)
    ensures n <= |s| && TrimRight(s, strip) == s[..n] && forall i :: n <= i < |s| ==> strip(s[i])
    ensures n > 0 ==> !strip(s[n - 1])
  {
    n := |s|;
    if s != "" && strip(s[|s| - 1]) {
      var shorter := s[..|s| - 1];
      n := TrimRightShape(shorter, strip);
      assert shorter[..n] == s[..n];
      assert forall i :: n <= i < |s| - 1 ==> s[i] == shorter[i];
    } else {
      assert s[..|s|] == s;
    }
  }

  /** Trimming on both sides keeps one slice and strips everything outside it. */
  lemma TrimShape(s: string, strip: char -> bool) returns (k: nat, n: nat)
    ensures k <= n <= |s| && TrimRight(TrimLeft(s, strip), strip) == s[k..n]
    ensures forall i :: 0 <= i < k || n <= i < |s| ==> strip(s[i])
    ensures k < n ==> !strip(s[k]) && !strip(s[n - 1])
  {
    k := TrimLeftShape(s, strip);
    var left := s[k..];
    var m := TrimRightShape(left, strip);
    assert forall i :: m <= i < |left| ==> left[i] == s[k + i];
    assert left[..m] == s[k..k + m];
    n := k + m;
    forall i | n <= i < |s|
      ensures strip(s[i])
    {
      assert left[i - k] == s[i];
    }
  }

  /** Trimming is this: whatever slice starts and ends with text, with white space around it, is what TrimSpace keeps. */
  lemma TrimSpaceKeeps(s: string, k: nat, n: nat)
    requires k < n <= |s| && !IsSpace(s[k]) && !IsSpace(s[n - 1])
    requires forall i :: 0 <= i < k || n <= i < |s| ==> IsSpace(s[i])
    ensures TrimSpace(s) == s[k..n]
  {
    var k', n' := TrimShape(s, IsSpace);
    assert !(k < k') && !(n' < n);
  }

  /** The same for SQL's TRIM and the space character. */
  lemma SqlTrimKeeps(s: string, k: nat, n: nat)
    requires k < n <= |s| && s[k] != ' ' && s[n - 1] != ' '
    requires forall i :: 0 <= i < k || n <= i < |s| ==> s[i] == ' '
    ensures SqlTrim(s) == s[k..n]
  {
    var k', n' := TrimShape(s, c => c == ' ');
    assert !(k < k') && !(n' < n);
  }

  /** What SQL has trimmed, Go trims to the same text. */
  lemma TrimSpaceAfterSql(s: string)
    ensures TrimSpace(SqlTrim(s)) == TrimSpace(s)
    ensures TrimSpace(TrimSpace(s)) == TrimSpace(s)
  {
    TrimTwice(s, c => c == ' ');
    TrimTwice(s, IsSpace);
  }

  lemma SliceOfSlice(s: string, k: nat, n: nat, a: nat, b: nat)
    requires k <= n <= |s| && a <= b <= n - k
    ensures s[k..n][a..b] == s[k + a..k + b]
  {
    forall i | 0 <= i < b - a ensures s[k..n][a..b][i] == s[k + a..k + b][i] {
      assert s[k..n][a + i] == s[k + a + i];
    }
  }

  lemma TrimTwice(s: string, strip: char -> bool)
    requires forall c :: strip(c) ==> IsSpace(c)
    ensures TrimSpace(TrimRight(TrimLeft(s, strip), strip)) == TrimSpace(s)
  {
    hide TrimLeft, TrimRight, IsSpace;
    var k, n := TrimShape(s, strip);
    var kept := s[k..n];
    var a, b := TrimShape(kept, IsSpace);
    if a < b {
      forall i | 0 <= i < k + a || k + b <= i < |s|
        ensures IsSpace(s[i])
      {
        if k <= i < n {
          assert kept[i - k] == s[i];
        }
      }
      TrimSpaceKeeps(s, k + a, k + b);
      SliceOfSlice(s, k, n, a, b);
    } else {
      assert TrimSpace(kept) == "";
      TrimSpaceEmpty(kept);
      assert forall i :: k <= i < n ==> s[i] == kept[i - k];
      TrimSpaceEmpty(s);
    }
  }

  /** TrimSpace empties exactly the blank strings. */
  lemma TrimSpaceEmpty(s: string)
    ensures TrimSpace(s) == "" <==> IsBlank(s)
  {
    var k, n := TrimShape(s, IsSpace);
  }

  /** SQL TRIM empties exactly the strings of spaces, and leaves a blank string exactly when it was given one. */
  lemma SqlTrimEmpty(s: string)
    ensures SqlTrim(s) == "" <==> forall i :: 0 <= i < |s| ==> s[i] == ' '
    ensures IsBlank(SqlTrim(s)) <==> IsBlank(s)
  {
    var k, n := TrimShape(s, c => c == ' ');
    var kept := s[k..n];
    assert forall i :: k <= i < n ==> s[i] == kept[i - k];
  }

  /** A string that is not blank stays so when it is trimmed. */
  lemma TrimSpaceKeepsText(s: string)
    ensures IsBlank(TrimSpace(s)) <==> IsBlank(s)
  {
    var k, n := TrimShape(s, IsSpace);
    var kept := s[k..n];
    assert forall i :: k <= i < n ==> s[i] == kept[i - k];
  }

  /** Decimal digits, without leading zeros. */
  function Decimal(n: nat): (s: string)
    ensures s != ""
  {
    if n < 10 then [('0' as int + n) as char] else Decimal(n / 10) + [('0' as int + n % 10) as char]
  }

  /** Read digit by digit, base ten. */
  function ValueOf(s: string): int {
    if s == "" then 0 else 10 * ValueOf(s[..|s| - 1]) + (s[|s| - 1] as int - '0' as int)
  }

  /** A number reads back from its decimal digits, and only zero starts with one. */
  lemma {:induction false} DecimalReadsBack(n: nat)
    ensures ValueOf(Decimal(n)) == n && (forall i :: 0 <= i < |Decimal(n)| ==> '0' <= Decimal(n)[i] <= '9')
    ensures n > 0 ==> Decimal(n)[0] != '0'
  {
    if n >= 10 {
      DecimalReadsBack(n / 10);
      assert Decimal(n)[..|Decimal(n)| - 1] == Decimal(n / 10);
    } else {
      assert Decimal(n)[..0] == "";
    }
  }

  /** Unicode's White_Space characters, all 25 of them. */
  lemma SpacesAre(c: char)
    ensures IsSpace(c) <==> c as int in {
              0x09, 0x0A, 0x0B, 0x0C, 0x0D, 0x20, 0x85, 0xA0, 0x1680, 0x2000, 0x2001, 0x2002, 0x2003, 0x2004, 0x2005,
              0x2006, 0x2007, 0x2008, 0x2009, 0x200A, 0x2028, 0x2029, 0x202F, 0x205F, 0x3000}
  {
  }
}
