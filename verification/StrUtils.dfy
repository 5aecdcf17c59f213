/** The string routines of 1-GeneralKnowlegde/strutils.c, in place on a buffer of which the first len
    characters are theirs; len is a uint32_t and does not exceed the buffer. */
module StrUtils {
  import opened Text

  const SUCCESS: nat := 0
  const ERRNO_II: int := -1

  /** What uint32_t makes of ERRNO_II. */
  const INVALID_INPUT: nat := 0xFFFF_FFFF

  predicate ValidateInput(str: array?<char>, len: nat) {
    str != null && len > 0
  }

  predicate Owns(str: array?<char>, len: nat) {
    len < TWO32 && (str != null ==> len <= str.Length)
  }

  method SwapCharacter(str: array<char>, x: nat, y: nat)
    requires x < str.Length && y < str.Length
    modifies str
    ensures str[x] == old(str[y]) && str[y] == old(str[x])
    ensures forall i | 0 <= i < str.Length && i != x && i != y :: str[i] == old(str[i])
  {
    var temp := str[x];
    str[x] := str[y];
    str[y] := temp;
  }

  /** The first loop of str_reverse: the end of the part to reverse. */
  method FindTail(str: array<char>, len: nat) returns (tail: nat)
    requires 0 < len <= str.Length
    ensures tail == Tail(str[..len])
  {
    tail := len - 1;
    var idx := 0;
    while idx < len
      invariant idx <= len && tail == len - 1 && forall i | 0 <= i < idx :: str[i] != NUL
    {
      if str[idx] == NUL {
        tail := idx;
        FirstNulIs(str[..len], idx);
        return;
      }
      idx := idx + 1;
    }
    FirstNulIs(str[..len], len);
  }

  /** The second loop of str_reverse: characters change places from the outside in. */
  method ReversePrefix(str: array<char>, tail: nat)
    requires tail <= str.Length
    modifies str
    ensures str[..tail] == Reversed(old(str[..tail])) && str[tail..] == old(str[tail..])
    ensures forall i | 0 <= i < tail :: str[i] == old(str[tail - 1 - i])
  {
    var idx := 0;
    while idx < tail / 2
      invariant idx <= tail / 2
      invariant forall i | 0 <= i < idx :: str[i] == old(str[tail - 1 - i]) && str[tail - 1 - i] == old(str[i])
      invariant forall i | idx <= i < tail - idx || tail <= i < str.Length :: str[i] == old(str[i])
    {
      SwapCharacter(str, idx, tail - idx - 1);
      idx := idx + 1;
    }
    forall i | 0 <= i < tail ensures str[i] == old(str[tail - 1 - i]) {
      assert i < idx || tail - 1 - i < idx || i == tail - 1 - i;
    }
  }

  /** A buffer of which only the first tail characters have changed. */
  lemma Rejoin(before: seq<char>, after: seq<char>, tail: nat, len: nat)
    requires tail <= len <= |before| == |after|
    requires after[..tail] == Reversed(before[..tail]) && after[tail..] == before[tail..]
    ensures after[..len] == Reversed(before[..len][..tail]) + before[..len][tail..]
    ensures after[len..] == before[len..]
  {
    assert before[..len][..tail] == before[..tail];
    forall i | tail <= i < |before| ensures after[i] == before[i] {
      assert after[tail..][i - tail] == before[tail..][i - tail];
    }
    assert after[..len] == after[..tail] + after[tail..len];
  }

  /** The characters before the end of the text, or all but the last, come out in the opposite order. */
  method StrReverse(str: array?<char>, len: nat) returns (code: nat)
    requires Owns(str, len)
    modifies str
    ensures code == if str != null && len > 0 then 0 else 0xFFFF_FFFF
    ensures str != null && len == 0 ==> str[..] == old(str[..])
    ensures ValidateInput(str, len) ==> str[..len] == ReverseText(old(str[..len])) && str[len..] == old(str[len..])
    ensures ValidateInput(str, len) ==>
              forall t: nat | EndsAt(old(str[..len]), t) ::
                forall i | 0 <= i < str.Length :: str[i] == if i < t then old(str[..])[t - 1 - i] else old(str[..])[i]
  {
    if !ValidateInput(str, len) {
      return INVALID_INPUT;
    }
    ghost var before := str[..];
    var tail := FindTail(str, len);
    ReversePrefix(str, tail);
    Rejoin(before, str[..], tail, len);
    forall t: nat | EndsAt(before[..len], t)
      ensures forall i | 0 <= i < str.Length :: str[i] == if i < t then before[t - 1 - i] else before[i]
    {
      ReversedAt(before, str[..], len, t);
    }
    return SUCCESS;
  }

  lemma ReversedAt(before: seq<char>, after: seq<char>, len: nat, t: nat)
    requires 0 < len <= |before| == |after| && EndsAt(before[..len], t)
    requires after[..len] == ReverseText(before[..len]) && after[len..] == before[len..]
    ensures forall i | 0 <= i < |after| :: after[i] == if i < t then before[t - 1 - i] else before[i]
  {
    ReverseAt(before[..len], t);
    forall i | 0 <= i < |after| ensures after[i] == if i < t then before[t - 1 - i] else before[i] {
      if i < len {
        assert after[i] == after[..len][i];
      } else {
        assert after[i] == after[len..][i - len];
      }
    }
  }

  lemma Surrounded(s: seq<char>, start: nat, end: nat)
    requires start <= end < |s|
    requires forall i | 0 <= i < start || end < i < |s| :: s[i] == ' '
    ensures s == Spaces(start) + s[start..end + 1] + Spaces(|s| - end - 1)
  {
  }

  /** start and end after the two scans of str_trim delimit the trimmed text. */
  ghost predicate Delimits(s: seq<char>, start: nat, end: nat) {
    && start <= |s| && end < |s|
    && (forall i | 0 <= i < start :: s[i] == ' ')
    && (forall i | end < i < |s| :: s[i] == ' ')
    && if start < |s| then start <= end && s[start] != ' ' && s[end] != ' ' else end == |s| - 1
  }

  lemma AllSpaces(s: seq<char>)
    requires forall i | 0 <= i < |s| :: s[i] == ' '
    ensures s == Spaces(|s|) + [] + Spaces(0)
  {
  }

  lemma TextTrim(s: seq<char>, start: nat, end: nat)
    requires Delimits(s, start, end) && start < |s|
    ensures Trim(s) == s[start..end + 1]
  {
    var t := s[start..end + 1];
    Surrounded(s, start, end);
    assert NoOuterSpaces(t) by {
      assert t[0] == s[start] && t[|t| - 1] == s[end];
    }
    TrimIs(s, start, t, |s| - end - 1);
  }

  lemma BlankTrim(s: seq<char>)
    requires forall i | 0 <= i < |s| :: s[i] == ' '
    ensures Trim(s) == []
  {
    AllSpaces(s);
    TrimIs(s, |s|, [], 0);
  }

  lemma DelimitedTrim(s: seq<char>, start: nat, end: nat)
    requires Delimits(s, start, end)
    ensures Lead(s) == start
    ensures Trim(s) == if start < |s| then s[start..end + 1] else []
  {
    LeadIs(s, start);
    if start < |s| {
      TextTrim(s, start, end);
    } else {
      BlankTrim(s);
    }
  }

  /** The first two loops of str_trim. */
  method ScanSpaces(str: array<char>, len: nat) returns (start: nat, end: nat)
    requires 0 < len <= str.Length
    ensures Delimits(str[..len], start, end)
  {
    start, end := 0, len - 1;
    while start < len && str[start] == ' '
      invariant start <= len && forall i | 0 <= i < start :: str[i] == ' '
    {
      start := start + 1;
    }
    while end > start && str[end] == ' '
      invariant end < len && (start < len ==> start <= end) && (start == len ==> end == len - 1)
      invariant forall i | end < i < len :: str[i] == ' '
    {
      end := end - 1;
    }
  }

  /** Where the i-th character of the result comes from: from the text, or, once the source index has
      started over, from what is already there. */
  lemma CopiedFrom(s: seq<char>, start: nat, end: nat, i: nat)
    requires |s| < TWO32 && Delimits(s, start, end) && i < |s|
    ensures i + start < TWO32 ==> TrimResult(s)[i] == if i + start <= end then s[i + start] else NUL
    ensures i + start >= TWO32 ==> i + start - TWO32 <= end && i + start - TWO32 < i && TrimResult(s)[i] == TrimResult(s)[i + start - TWO32]
  {
    DelimitedTrim(s, start, end);
    var period := TWO32 - Lead(s);
    var j := Source(i, period);
    assert TrimResult(s)[i] == Padded(s)[j];
    if i < period {
      assert j == i;
      if i + start <= end {
        assert Trim(s)[i] == s[i + start];
      }
    } else {
      assert j == Source(i - period, period);
      assert TrimResult(s)[i - period] == Padded(s)[j];
    }
  }

  lemma Mod32(n: nat)
    requires n < 0x2_0000_0000
    ensures n % TWO32 == if n < TWO32 then n else n - TWO32
  {
    assert TWO32 == 0x1_0000_0000;
  }

  /** The last loop of str_trim; source and target overlap. */
  method CopyForward(str: array<char>, len: nat, start: nat, end: nat)
    requires len <= str.Length && len < TWO32 && Delimits(str[..len], start, end)
    modifies str
    ensures str[..len] == TrimResult(old(str[..len])) && str[len..] == old(str[len..])
  {
    ghost var s := str[..len];
    ghost var r := TrimResult(s);
    for idx := 0 to len
      invariant forall i | 0 <= i < idx :: str[i] == r[i]
      invariant forall i | idx <= i < len :: str[i] == s[i]
      invariant str[len..] == old(str[len..])
    {
      Mod32(idx + start);
      CopiedFrom(s, start, end, idx);
      var from := (idx + start) % TWO32;
      if from <= end {
        str[idx] := str[from];
      } else {
        str[idx] := NUL;
      }
    }
  }

  /** after has the text of before at its front, without the spaces around it, and NULs behind. */
  ghost predicate TrimmedAt(before: seq<char>, after: seq<char>) {
    && |after| == |before|
    && (OnlySpaces(before) ==> forall i | 0 <= i < |after| :: after[i] == '\0')
    && forall first: nat, last: nat | TextBetween(before, first, last) ::
         forall i | 0 <= i < |after| :: after[i] == if i <= last - first then before[first + i] else '\0'
  }

  lemma PaddedIsTrimmed(s: seq<char>)
    ensures TrimmedAt(s, Padded(s))
  {
    if OnlySpaces(s) {
      PaddedSpaces(s);
    }
    forall first: nat, last: nat | TextBetween(s, first, last)
      ensures forall i | 0 <= i < |s| :: Padded(s)[i] == if i <= last - first then s[first + i] else '\0'
    {
      PaddedAt(s, first, last);
    }
  }

  method StrTrim(str: array?<char>, len: nat) returns (code: nat)
    requires Owns(str, len)
    modifies str
    ensures code == if str != null && len > 0 then 0 else 0xFFFF_FFFF
    ensures str != null && len == 0 ==> str[..] == old(str[..])
    ensures ValidateInput(str, len) ==> str[..len] == TrimResult(old(str[..len])) && str[len..] == old(str[len..])
    ensures ValidateInput(str, len) && len <= TWO31 ==> str[..len] == Padded(old(str[..len]))
    ensures ValidateInput(str, len) && len <= TWO31 ==> TrimmedAt(old(str[..len]), str[..len])
  {
    if !ValidateInput(str, len) {
      return INVALID_INPUT;
    }
    if len <= TWO31 {
      TrimIsRight(str[..len]);
      PaddedIsTrimmed(str[..len]);
    }
    var start, end := ScanSpaces(str, len);
    CopyForward(str, len, start, end);
    return SUCCESS;
  }

  lemma Congruent(a: int, k: int)
    ensures (a + 0x1_0000_0000 * k) % 0x1_0000_0000 == a % 0x1_0000_0000
  {
  }

  /** Adding one digit, in unsigned 32-bit arithmetic. */
  lemma NextDigit(value: nat, digit: nat)
    ensures ((value % TWO32) * 10 % TWO32 + digit) % TWO32 == (10 * value + digit) % TWO32
  {
    assert TWO32 == 0x1_0000_0000;
    var low := value % 0x1_0000_0000;
    var mid := low * 10 % 0x1_0000_0000;
    var k := 10 * (value / 0x1_0000_0000) + low * 10 / 0x1_0000_0000;
    assert 10 * value + digit == mid + digit + 0x1_0000_0000 * k;
    Congruent(mid + digit, k);
  }

  /** The conversion of the unsigned result, negated or not, to int32_t. */
  lemma Converted(value: nat)
    ensures ToInt32((TWO32 - value % TWO32) % TWO32) == ToInt32(0 - value)
    ensures ToInt32(value % TWO32) == ToInt32(value)
  {
    assert TWO32 == 0x1_0000_0000;
    Congruent(0 - value, value / 0x1_0000_0000 + 1);
  }

  lemma OneMoreDigit(s: seq<char>, k: nat)
    requires k < |s| && AllDigits(s[..k]) && IsDigit(s[k])
    ensures AllDigits(s[..k + 1]) && Value(s[..k + 1]) == 10 * Value(s[..k]) + Digit(s[k])
  {
    assert s[..k + 1][..k] == s[..k];
  }

  /** The loop of str_to_int, from index first on; !ok is its early return. */
  method Accumulate(str: array<char>, len: nat, first: nat) returns (ok: bool, ret: nat)
    requires first <= len <= str.Length
    ensures var rest := str[first..len];
            && (ok <==> AllDigits(rest[..FirstNul(rest)]))
            && (ok ==> ret == Value(rest[..FirstNul(rest)]) % TWO32)
  {
    ghost var rest := str[first..len];
    var idx := first;
    ret := 0;
    while idx < len
      invariant first <= idx <= len
      invariant forall i | 0 <= i < idx - first :: rest[i] != NUL
      invariant AllDigits(rest[..idx - first]) && ret == Value(rest[..idx - first]) % TWO32
    {
      assert str[idx] == rest[idx - first];
      if str[idx] == NUL {
        FirstNulIs(rest, idx - first);
        return true, ret;
      }
      if !IsDigit(str[idx]) {
        assert rest[..FirstNul(rest)][idx - first] == str[idx];
        return false, ret;
      }
      OneMoreDigit(rest, idx - first);
      NextDigit(Value(rest[..idx - first]), Digit(str[idx]));
      ret := (ret * 10 % TWO32 + Digit(str[idx])) % TWO32;
      idx := idx + 1;
    }
    FirstNulIs(rest, len - first);
    return true, ret;
  }

  /** str_to_int on a valid buffer. */
  method Convert(str: array<char>, len: nat) returns (r: int)
    requires 0 < len <= str.Length
    ensures r == Parsed(str[..len])
  {
    var ok, ret := Accumulate(str, len, if str[0] == '-' then 1 else 0);
    assert str[..len][1..] == str[1..len] && str[..len] == str[0..len];
    if !ok {
      return INT32_MAX;
    }
    var bits := if str[0] == '-' then (TWO32 - ret) % TWO32 else ret;
    Converted(Value(Body(str[..len])));
    return ToInt32(bits);
  }

  /** What the result says about the arguments: -1 stands for an invalid buffer and for -1, INT32_MAX
      for a character that is not a digit and for INT32_MAX, each but for multiples of 2^32; and a
      number is returned as it stands exactly when it has 32 bits. */
  method StrToInt(str: array?<char>, len: nat) returns (r: int)
    requires Owns(str, len)
    ensures -TWO31 <= r < TWO31
    ensures r == if ValidateInput(str, len) then Parsed(str[..len]) else -1
    ensures r == -1 <==>
            !ValidateInput(str, len) || (AllDigits(Body(str[..len])) && (Signed(str[..len]) + 1) % TWO32 == 0)
    ensures ValidateInput(str, len) && (exists i: nat :: InvalidAt(str[..len], i)) ==> r == 0x7FFF_FFFF
    ensures r == INT32_MAX <==>
            ValidateInput(str, len) && (!AllDigits(Body(str[..len])) || (Signed(str[..len]) - INT32_MAX) % TWO32 == 0)
    ensures ValidateInput(str, len) && AllDigits(Body(str[..len])) ==>
              (r == Signed(str[..len]) <==> -TWO31 <= Signed(str[..len]) < TWO31)
  {
    if !ValidateInput(str, len) {
      return ERRNO_II;
    }
    r := Convert(str, len);
    InvalidIff(str[..len]);
    ParsedMinusOneIff(str[..len]);
    ParsedMaxIff(str[..len]);
    if AllDigits(Body(str[..len])) {
      ParsedIsExactIff(str[..len]);
    }
  }

  /** Printing any 32-bit number into a buffer, ended by a NUL or by the buffer, and parsing it. */
  method ParseBack(str: array<char>, len: nat, n: int) returns (r: int)
    requires Owns(str, len) && -TWO31 <= n < TWO31
    requires Printed(n) <= str[..len] && (|Printed(n)| < len ==> str[|Printed(n)|] == NUL)
    ensures r == n
  {
    r := StrToInt(str, len);
    ghost var behind := str[..len][|Printed(n)|..];
    assert str[..len] == Printed(n) + behind;
    ParsePrinted(n, behind);
  }

  /** Trimming a buffer and then reversing it. */
  method TrimReverse(str: array<char>, len: nat)
    requires 0 < len <= str.Length && len <= TWO31
    modifies str
    ensures var t := Trim(old(str[..len]));
            |t| < len && (forall i | 0 <= i < |t| :: t[i] != NUL) ==>
              && str[..len] == Reversed(t) + seq(len - |t|, _ => NUL)
              && forall i | 0 <= i < len :: str[i] == if i < |t| then t[|t| - 1 - i] else '\0'
  {
    ghost var s := str[..len];
    var code := StrTrim(str, len);
    code := StrReverse(str, len);
    if |Trim(s)| < len && forall i | 0 <= i < |Trim(s)| :: Trim(s)[i] != NUL {
      TrimThenReverse(s);
      assert forall i | 0 <= i < len :: str[i] == str[..len][i];
    }
  }
}
