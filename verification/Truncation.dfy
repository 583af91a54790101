/**
  Byte budgets in review evidence (internal/reviewer/context.go): text is cut without
  splitting a UTF-8 character, and check outputs share one budget.
 */
module Truncation {

  newtype byte = x: int | 0 <= x < 256

  // ----- well-formed UTF-8: section 4 of RFC 3629 -----

  predicate IsTail(b: byte) {
    0x80 <= b <= 0xBF
  }

  /** The second byte a lead byte of three or four bytes allows. */
  predicate AllowsSecond(lead: byte, b: byte) {
    if lead == 0xE0 then 0xA0 <= b <= 0xBF
    else if lead == 0xED then 0x80 <= b <= 0x9F
    else if lead == 0xF0 then 0x90 <= b <= 0xBF
    else if lead == 0xF4 then 0x80 <= b <= 0x8F
    else IsTail(b)
  }

  /** Length of the character the bytes begin with; 0 if they begin with none. */
  function CharLength(s: seq<byte>): (n: nat)
    ensures n <= 4 && n <= |s|
  {
    if |s| >= 1 && s[0] <= 0x7F then 1
    else if |s| >= 2 && 0xC2 <= s[0] <= 0xDF && IsTail(s[1]) then 2
    else if |s| >= 3 && 0xE0 <= s[0] <= 0xEF && AllowsSecond(s[0], s[1]) && IsTail(s[2]) then 3
    else if |s| >= 4 && 0xF0 <= s[0] <= 0xF4 && AllowsSecond(s[0], s[1]) && IsTail(s[2]) && IsTail(s[3]) then 4
    else 0
  }

  /** UTF8-octets = *( UTF8-char ) */
  predicate WellFormed(s: seq<byte>) {
    s == [] || (CharLength(s) > 0 && WellFormed(s[CharLength(s)..]))
  }

  /** Unicode scalar values. */
  predicate IsScalar(c: nat) {
    c <= 0x10FFFF && !(0xD800 <= c <= 0xDFFF)
  }

  /** The encoder's side of section 3 of RFC 3629. */
  function Encode(c: nat): seq<byte>
    requires IsScalar(c)
  {
    if c < 0x80 then [c as byte]
    else if c < 0x800 then [(0xC0 + c / 64) as byte, (0x80 + c % 64) as byte]
    else if c < 0x1_0000 then [(0xE0 + c / 4096) as byte, (0x80 + c / 64 % 64) as byte, (0x80 + c % 64) as byte]
    else [(0xF0 + c / 262_144) as byte, (0x80 + c / 4096 % 64) as byte, (0x80 + c / 64 % 64) as byte, (0x80 + c % 64) as byte]
  }

  /** Six bits at a time. */
  lemma SixBits(a: nat, b: nat, d: nat, e: nat)
    requires b < 64 && d < 64 && e < 64
    ensures var c := ((a * 64 + b) * 64 + d) * 64 + e;
            c % 64 == e && c / 64 % 64 == d && c / 4096 % 64 == b && c / 262_144 == a
  {
    var c := ((a * 64 + b) * 64 + d) * 64 + e;
    assert c / 64 == (a * 64 + b) * 64 + d;
    assert c / 4096 == a * 64 + b;
  }

  lemma SixBitsOf(c: nat) returns (a: nat, b: nat, d: nat, e: nat)
    ensures b < 64 && d < 64 && e < 64 && c == ((a * 64 + b) * 64 + d) * 64 + e
    ensures c % 64 == e && c / 64 % 64 == d && c / 4096 % 64 == b && c / 262_144 == a && c / 64 == (a * 64 + b) * 64 + d
    ensures c / 4096 == a * 64 + b
  {
    e, d, b, a := c % 64, c / 64 % 64, c / 64 / 64 % 64, c / 64 / 64 / 64;
    assert c / 64 / 64 == a * 64 + b && c / 64 == (a * 64 + b) * 64 + d;
    SixBits(a, b, d, e);
  }

  /** Whatever the encoder writes is one character, */
  lemma EncodedIsCharacter(c: nat, rest: seq<byte>)
    requires IsScalar(c)
    ensures CharLength(Encode(c) + rest) == |Encode(c)|
  {
    var a, b, d, e := SixBitsOf(c);
    if c >= 0x1_0000 {
      assert Encode(c) == [(0xF0 + a) as byte, (0x80 + b) as byte, (0x80 + d) as byte, (0x80 + e) as byte];
    } else if c >= 0x800 {
      assert a == 0 && Encode(c) == [(0xE0 + b) as byte, (0x80 + d) as byte, (0x80 + e) as byte];
    } else if c >= 0x80 {
      assert a == 0 == b && Encode(c) == [(0xC0 + d) as byte, (0x80 + e) as byte];
    }
    hide Encode;
  }

  /** and every character is what the encoder writes for some scalar value. */
  lemma CharacterIsEncoded(s: seq<byte>) returns (c: nat)
    requires CharLength(s) > 0
    ensures IsScalar(c) && s[..CharLength(s)] == Encode(c)
  {
    match CharLength(s)
    case 1 => c := s[0] as int;
    case 2 => c := LongerIsEncoded(0, 0, s[0] as int - 0xC0, s[1] as int - 0x80);
    case 3 => c := LongerIsEncoded(0, s[0] as int - 0xE0, s[1] as int - 0x80, s[2] as int - 0x80);
    case _ => c := LongerIsEncoded(s[0] as int - 0xF0, s[1] as int - 0x80, s[2] as int - 0x80, s[3] as int - 0x80);
  }

  lemma LongerIsEncoded(a: nat, b: nat, d: nat, e: nat) returns (c: nat)
    requires a <= 4 && b < 64 && d < 64 && e < 64
    requires a > 0 || b > 0 || d >= 2
    requires (a == 4 ==> b < 16) && !(a == 0 && b == 13 && d >= 32)
    ensures IsScalar(c)
    ensures a > 0 || b >= 16 ==>
              Encode(c) == [(0xF0 + a) as byte, (0x80 + b) as byte, (0x80 + d) as byte, (0x80 + e) as byte]
    ensures a == 0 && b < 16 && (b > 0 || d >= 32) ==> Encode(c) == [(0xE0 + b) as byte, (0x80 + d) as byte, (0x80 + e) as byte]
    ensures a == 0 == b && 2 <= d < 32 ==> Encode(c) == [(0xC0 + d) as byte, (0x80 + e) as byte]
  {
    SixBits(a, b, d, e);
    c := ((a * 64 + b) * 64 + d) * 64 + e;
  }

  /** The encoding of a text. */
  function EncodeAll(text: seq<nat>): seq<byte>
    requires forall i :: 0 <= i < |text| ==> IsScalar(text[i])
  {
    if text == [] then [] else Encode(text[0]) + EncodeAll(text[1..])
  }

  /** The encoding of any text is well-formed, */
  lemma {:induction false} EncodingIsWellFormed(text: seq<nat>)
    requires forall i :: 0 <= i < |text| ==> IsScalar(text[i])
    ensures WellFormed(EncodeAll(text))
  {
    if text != [] {
      var first, rest := Encode(text[0]), EncodeAll(text[1..]);
      EncodingIsWellFormed(text[1..]);
      EncodedIsCharacter(text[0], rest);
      assert (first + rest)[|first|..] == rest;
      hide Encode, CharLength;
    }
  }

  /** and nothing else is. */
  lemma {:induction false} WellFormedIsEncoding(s: seq<byte>) returns (text: seq<nat>)
    requires WellFormed(s)
    ensures forall i :: 0 <= i < |text| ==> IsScalar(text[i])
    ensures EncodeAll(text) == s
  {
    hide Encode, CharLength;
    text := [];
    if s != [] {
      var n := CharLength(s);
      var c := CharacterIsEncoded(s);
      var rest := WellFormedIsEncoding(s[n..]);
      text := [c] + rest;
      assert text[1..] == rest && s == s[..n] + s[n..];
    }
  }

  // ----- truncateBytes -----

  /** The longest well-formed prefix of at most n bytes. */
  function Longest(s: seq<byte>, n: nat): (k: nat)
    requires n <= |s|
    ensures k <= n
  {
    if n == 0 || WellFormed(s[..n]) then n else Longest(s, n - 1)
  }

  function Truncated(value: seq<byte>, limit: int): seq<byte> {
    if limit <= 0 then []
    else if |value| <= limit then value
    else value[..Longest(value, limit)]
  }

  lemma {:induction false} LongestIsLongest(s: seq<byte>, n: nat)
    requires n <= |s|
    ensures Longest(s, n) <= n && WellFormed(s[..Longest(s, n)])
    ensures forall k :: Longest(s, n) < k <= n ==> !WellFormed(s[..k])
  {
    if n > 0 && !WellFormed(s[..n]) {
      LongestIsLongest(s, n - 1);
    }
  }

  /** Cuts off bytes from the end until what is left is well-formed. */
  method TruncateBytes(value: seq<byte>, limit: int) returns (text: seq<byte>, cut: bool)
    ensures text == Truncated(value, limit)
    ensures cut <==> text != value || (0 < limit < |value|)
    ensures |text| <= limit || text == []
    ensures cut && limit > 0 ==>
              && text <= value[..limit] && WellFormed(text)
              && forall k :: |text| < k <= limit ==> !WellFormed(value[..k])
  {
    if limit <= 0 {
      return [], value != [];
    }
    if |value| <= limit {
      return value, false;
    }
    var payload := value[..limit];
    while |payload| > 0 && !WellFormed(payload)
      invariant |payload| <= limit && payload == value[..|payload|]
      invariant Longest(value, limit) == Longest(value, |payload|)
    {
      payload := payload[..|payload| - 1];
    }
    LongestIsLongest(value, limit);
    return payload, true;
  }

  /** A character depends on its own bytes only. */
  lemma CharLengthOfPrefix(s: seq<byte>, m: nat)
    requires CharLength(s) > 0 && CharLength(s) <= m <= |s|
    ensures CharLength(s[..m]) == CharLength(s)
  {
  }

  /** Every position of well-formed text is at most three bytes behind a character boundary. */
  lemma {:induction false} BoundaryNearby(s: seq<byte>, n: nat) returns (k: nat)
    requires WellFormed(s) && n <= |s|
    ensures k <= n <= k + 3 && WellFormed(s[..k])
    decreases |s|
  {
    var c := CharLength(s);
    if n < c || s == [] {
      k := 0;
    } else {
      var rest := BoundaryNearby(s[c..], n - c);
      k := c + rest;
      CharLengthOfPrefix(s, k);
      assert s[..k][c..] == s[c..][..rest];
    }
  }

  /** Cutting well-formed text costs at most three bytes below the limit, and leaves it well-formed. */
  lemma TruncationIsTight(value: seq<byte>, limit: nat)
    requires WellFormed(value) && 0 < limit < |value|
    ensures WellFormed(Truncated(value, limit))
    ensures limit - 3 <= |Truncated(value, limit)| <= limit
  {
    LongestIsLongest(value, limit);
    var k := BoundaryNearby(value, limit);
  }

  /** Three is reached: the first three bytes of a four-byte character are not text. */
  lemma TruncationMayCostThree()
    ensures WellFormed([0xF0, 0x9F, 0x98, 0x80]) && Truncated([0xF0, 0x9F, 0x98, 0x80], 3) == []
  {
    var s: seq<byte> := [0xF0, 0x9F, 0x98, 0x80];
    assert CharLength(s) == 4 && s[4..] == [];
    assert CharLength(s[..3]) == 0 && CharLength(s[..2]) == 0 && CharLength(s[..1]) == 0;
    assert Longest(s, 3) == Longest(s, 2) == Longest(s, 1) == Longest(s, 0);
  }

  // ----- buildCheckEvidence -----

  const MAX_STEP_OUTPUT_BYTES := 4 * 1024

  datatype Step = Step(output: seq<byte>, truncated: bool)

  function Total(outputs: seq<Step>): nat {
    if outputs == [] then 0 else Total(outputs[..|outputs| - 1]) + |outputs[|outputs| - 1].output|
  }

  function StepLimit(remaining: int): int {
    if remaining < MAX_STEP_OUTPUT_BYTES then remaining else MAX_STEP_OUTPUT_BYTES
  }

  /** A step's output cut to its own limit and to what the budget has left; a cut is marked. */
  predicate IsCut(step: Step, evidence: Step, remaining: int) {
    && evidence.output == Truncated(step.output, StepLimit(remaining))
    && evidence.output <= step.output && |evidence.output| <= 4096
    && (evidence.truncated <==> step.truncated || evidence.output != step.output)
  }

  predicate SharesAt(steps: seq<Step>, evidence: seq<Step>, totalLimit: int, i: nat)
    requires i < |evidence| <= |steps|
  {
    IsCut(steps[i], evidence[i], totalLimit - Total(evidence[..i]))
  }

  /** Each output in turn, from what the ones before it have left. */
  ghost predicate Shares(steps: seq<Step>, evidence: seq<Step>, totalLimit: int) {
    && |evidence| <= |steps|
    && forall i :: 0 <= i < |evidence| ==> SharesAt(steps, evidence, totalLimit, i)
  }

  method BuildCheckEvidence(steps: seq<Step>, totalLimit: int) returns (evidence: seq<Step>)
    ensures |evidence| == |steps| && Shares(steps, evidence, totalLimit)
    ensures Total(evidence) <= if totalLimit < 0 then 0 else totalLimit
  {
    hide Total, Shares, IsCut, Truncated;
    var remaining := totalLimit;
    evidence := [];
    NothingShared(steps, totalLimit);
    for i := 0 to |steps|
      invariant |evidence| == i && remaining == totalLimit - Total(evidence)
      invariant Total(evidence) <= if totalLimit < 0 then 0 else totalLimit
      invariant Shares(steps, evidence, totalLimit)
    {
      var outputLimit := MAX_STEP_OUTPUT_BYTES;
      if remaining < outputLimit {
        outputLimit := remaining;
      }
      var output, cut := TruncateBytes(steps[i].output, outputLimit);
      TruncatedIsPrefix(steps[i].output, outputLimit);
      ShareNext(steps, evidence, totalLimit, Step(output, steps[i].truncated || cut));
      remaining := remaining - |output|;
      evidence := evidence + [Step(output, steps[i].truncated || cut)];
    }
  }

  lemma NothingShared(steps: seq<Step>, totalLimit: int)
    ensures Shares(steps, [], totalLimit) && Total([]) == 0
  {
  }

  lemma TotalNext(evidence: seq<Step>, next: Step)
    ensures Total(evidence + [next]) == Total(evidence) + |next.output|
  {
    assert (evidence + [next])[..|evidence|] == evidence;
  }

  lemma CutNext(step: Step, next: Step, remaining: int)
    requires next.output == Truncated(step.output, StepLimit(remaining))
    requires next.truncated <==> step.truncated || next.output != step.output
    ensures IsCut(step, next, remaining)
  {
    hide Truncated;
    TruncatedIsPrefix(step.output, StepLimit(remaining));
  }

  lemma ShareNext(steps: seq<Step>, evidence: seq<Step>, totalLimit: int, next: Step)
    requires Shares(steps, evidence, totalLimit) && |evidence| < |steps|
    requires var step, limit := steps[|evidence|], StepLimit(totalLimit - Total(evidence));
             && next.output == Truncated(step.output, limit)
             && (next.truncated <==> step.truncated || next.output != step.output)
    ensures Shares(steps, evidence + [next], totalLimit)
    ensures Total(evidence + [next]) == Total(evidence) + |next.output|
  {
    hide IsCut, StepLimit, Total, Truncated;
    var longer := evidence + [next];
    assert longer[..|evidence|] == evidence;
    TotalNext(evidence, next);
    CutNext(steps[|evidence|], next, totalLimit - Total(evidence));
    forall i | 0 <= i < |longer|
      ensures SharesAt(steps, longer, totalLimit, i)
    {
      if i < |evidence| {
        assert SharesAt(steps, evidence, totalLimit, i);
        assert longer[..i] == evidence[..i];
      }
    }
  }

  lemma TruncatedIsPrefix(value: seq<byte>, limit: int)
    ensures Truncated(value, limit) <= value
    ensures 0 < limit < |value| ==> Truncated(value, limit) != value
    ensures |Truncated(value, limit)| <= if limit < 0 then 0 else limit
  {
    if 0 < limit < |value| {
      LongestIsLongest(value, limit);
    }
  }

  /** Outputs that fit are kept whole. */
  lemma {:induction false} NothingIsCutThatFits(steps: seq<Step>, evidence: seq<Step>, totalLimit: int)
    requires |evidence| == |steps| && Shares(steps, evidence, totalLimit) && Total(steps) <= totalLimit
    requires forall i :: 0 <= i < |steps| ==> |steps[i].output| <= 4096
    ensures evidence == steps
  {
    hide IsCut;
    if steps != [] {
      var n := |steps| - 1;
      assert evidence == evidence[..n] + [evidence[n]] && steps == steps[..n] + [steps[n]];
      TotalNext(steps[..n], steps[n]);
      assert SharesAt(steps, evidence, totalLimit, n);
      PrefixShares(steps, evidence, totalLimit, n);
      NothingIsCutThatFits(steps[..n], evidence[..n], totalLimit);
      hide Total;
      WholeOutput(steps[n], evidence[n], totalLimit - Total(steps[..n]));
    }
  }

  lemma PrefixShares(steps: seq<Step>, evidence: seq<Step>, totalLimit: int, n: nat)
    requires Shares(steps, evidence, totalLimit) && n <= |evidence|
    ensures Shares(steps[..n], evidence[..n], totalLimit)
  {
    hide IsCut, Total;
    forall i | 0 <= i < n
      ensures SharesAt(steps[..n], evidence[..n], totalLimit, i)
    {
      assert SharesAt(steps, evidence, totalLimit, i);
      assert evidence[..n][..i] == evidence[..i];
    }
  }

  lemma WholeOutput(step: Step, evidence: Step, remaining: int)
    requires IsCut(step, evidence, remaining) && |step.output| <= remaining && |step.output| <= MAX_STEP_OUTPUT_BYTES
    ensures evidence == step
  {
  }
}
